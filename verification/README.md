# RESIDUAL: a verified model

RESIDUAL is a control plane in which unreliable workers propose values and a host accepts only what it has verified.
This project models the six parts of it that carry the hard guarantees, and proves those guarantees for all inputs, all
worker replies, all interleavings and all clock readings. `dafny verify dfyconfig.toml` checks the whole project.

- **Finite-constraint compiler** (`residual/cic.py`): `Elimination`, `Treewidth` and `Certificates` show that replayed
  eliminations are tree decompositions of the certified width, over the paths of `Routes`; `Components`, `Constraints`,
  `Search` and `SearchTrees` show that pruning and search are exact and decomposition lossless; `Grouping`, `Meaning`,
  `Solving` and `Compiler` show that rewriting a DAG of obligations into a quotient of atomic groups preserves meaning and privacy.
- **Obligation harness** (`residual/engine.py`, `core.py`, `receipts.py`, `storage.py`): `Dag`, `Tasks`, `Intervals`,
  `Receipts`, `Bookkeeping`, `WarmRuns`, `Sources`, `Packets`, `Service`, `Replies`, `Engine`, `Provenance` and `Results`.
  `Engine.Harness` is the run loop; provider replies, failures, wire sizes and the choice of inlining evidence are
  arbitrary values. `Sources` says where accepted values come from, `Service` what a run owes to those it does not
  accept.
- **Loop controller, brakes and verifier** (`residual/loop.py`, `brakes.py`, `verifier.py`): `Goals`, `Brakes`, `Loop`,
  `Accounts`, `Controllers` and `QuietRuns`. The clock is an arbitrary tape of readings and the worker an arbitrary sequence of
  replies.
- **Quarantine** (`residual/quarantine.py`, `integration.py`): `Quarantine` is the state machine of critical sections of
  any number of threads; `QuarantineStores` is the store and the provider in front of it.
- **Hash chains** (`observation_layer/core.py`, `bus.py`, `residual/storage.py`): `Chains` and `Ledgers`.
- **Grants and sessions** (`demo/vm/provider-session.js`, `demo/vm/provider.js`, `demo/cloud_gateway/server.py`):
  `Grants` and `GrantProtocol` are the two-party protocol over first-in-first-out channels, `GrantReplies` says which
  request a reply answers, `GrantCharges` what one grant that replaces another does to requests and calls, and
  `GrantEnds` is the two ends as classes and the bridge that joins them; `Sessions` is the gateway's table.

Modelling decisions:

- SHA-256 is a free datatype constructor in every module that hashes: two digests are equal exactly when what was
  digested is. The truncated group identifiers of `residual/cic.py:223` are a naming function that is assumed injective.
- Identifiers are natural numbers; only their equality and order matter. JSON values are a datatype, and encoding a
  value as text and parsing it again gives the value back.
- Checks, solvers, evaluators and executors are pure functions of their arguments. Providers, policies other than
  budgets, clocks and upstream services are arbitrary. A sink stores or loses and raises or not, independently, at every
  emission.
- A `ContractError` is the error case of a result, or a call that changes nothing.
- Concurrent code is a state machine over critical sections; a class method that releases its lock in between takes the
  steps of the other threads as an argument, so that its contract holds for every schedule.
- Three facts that the text of the source does not show: the cycle error of `validate_receipt_graph` cannot occur once
  the parents are bound (`Receipts.BoundGraphsAreAcyclic`); with the standard brakes the controller's own token and
  last-pass trips never add a trip (`Loop.OwnTokenCheckIsRedundant`, `Loop.OwnPassCheckIsRedundant`); and a reply of the
  provider can resolve another call than the one it answers when a mission is granted twice and reuses an identifier
  while something of the first use is under way (`GrantReplies.ReusedIdentifier`). `GrantReplies.OwnReply` gives the
  exact condition. Mission Control draws a new mission identifier for every submission
  (`demo/vm/mission-control.js:102`), so that its own runs are covered by `GrantReplies.OwnReplies`; only another caller
  of the session could begin one mission twice.
- Replacing a grant that is still live, which `begin` allows, costs two guarantees: a request may be charged to the
  grant that its own has replaced (`GrantCharges.ReplacedGrant`; `GrantCharges.OwnCharge` gives the exact condition),
  and ending the second grant may leave a call of the first to its timer (`GrantCharges.LeftWaiting`;
  `Grants.EndAnswersAll`). Neither happens where each grant is ended before the next begins (`GrantCharges.OwnCharges`,
  `GrantCharges.EndAnswersEveryone`), as Mission Control does (`demo/vm/mission-control.js:102`). Every other theorem
  about grants holds for all runs.
- Observation chains: a filter may repeat an identity, and verification then rejects even an undamaged chain
  (`Chains.RepeatedIdentity`). A sink may lose an observation without raising, which the bus's counters do not show
  (`Chains.SilentLoss`), or raise after it has stored one, and then they show a loss that did not happen
  (`Chains.FalseAlarm`); `Chains.ObservationBus.LossIsDetected` says exactly when the counters are right.
- Ledgers: an event's data carries how many line separators its text holds. The canonical text escapes no character
  outside ASCII (`residual/core.py:17-18`), and reading splits lines at U+0085, U+2028 and U+2029 too
  (`residual/storage.py:53`), so that such an event is cut into lines that cannot be read (`Ledgers.CutLedger`);
  `Ledgers.WriteThenVerify` gives the exact condition.

## Model

| member | source | states |
|---|---|---|
| `Dag.Resolve` | residual/core.py:128-136 | the resolution loop succeeds if and only if the dependency relation has no cycle, if and only if it can be ranked |
| `Dag.StuckIsCyclic` | residual/core.py:131-134 | a nonempty set of obligations in which nothing is ready contains a dependency cycle, so the error raised there is always right |
| `Dag.RankFallsAlongWalk` | residual/core.py:128-136 | in a ranked relation the rank falls by at least one at every step of every dependency walk |
| `Tasks.NewTask` | residual/core.py:116-136 | construction accepts a declaration if and only if it is well formed and acyclic |
| `Tasks.CloudAllowedIsInherited` | residual/core.py:142-145 | everything reached along dependencies from an exportable obligation is exportable |
| `Tasks.CloudAllowedMeaning` | residual/core.py:142-145 | an obligation may leave the host if and only if nothing is private about it or anything it depends on, directly or not |
| `Tasks.ContextIsScoped` | residual/core.py:203-217 | a plugin sees all that its obligation declares and nothing else: whatever else differs, its context is the same |
| `Elimination.Working.Eliminate` | residual/cic.py:99-108 | the in-place edits leave exactly the graph in which the vertex is gone and its neighbors are pairwise joined, and report the neighbors and the missing pairs |
| `Elimination.FillSpec` | residual/cic.py:101-102 | the fill edges are exactly the ascending pairs of neighbors that were not adjacent |
| `Elimination.EditsEliminate` | residual/cic.py:103-107 | adding the fill edges, detaching the vertex and deleting it is elimination in the graph-theoretic sense |
| `Elimination.Width` | residual/cic.py:117-118 | the width is the largest number of neighbors of any step, attained by one, and zero without steps |
| `Elimination.EliminationCertificate` | residual/cic.py:111-118 | a supported graph and an exact permutation give the replayed certificate; anything else is an error |
| `Treewidth.FillPath` | residual/cic.py:99-118 | the fill-path theorem: after k eliminations two remaining vertices are adjacent if and only if the original graph joins them by a path through eliminated vertices only |
| `Treewidth.NeighborSpec` | residual/cic.py:99-118 | the neighbors recorded at a step, in terms of paths of the original graph alone |
| `Treewidth.NeighborsInParent` | residual/cic.py:99-118 | the neighbors of a step all lie in the bag of whichever of them is eliminated next |
| `Treewidth.EdgeInBag` | residual/cic.py:99-118 | every original edge lies in the bag of the end that is eliminated first |
| `Treewidth.BagsConnected` | residual/cic.py:99-118 | the bags that contain a vertex are connected in the elimination tree |
| `Treewidth.TreeDecomposition` | residual/cic.py:111-118 | for every undirected graph and every permutation the steps form a tree decomposition: vertices covered, edges covered, bags connected |
| `Treewidth.DecompositionWidth` | residual/cic.py:111-118 | the certified width bound is the largest bag size less one, attained by a bag |
| `Certificates.VerifyMeaning` | residual/cic.py:134-138 | replay accepts a certificate if and only if its ordering is a permutation, each step lists exactly the path-neighbors and fill pairs of the original graph in order, and its width is the maximum |
| `Certificates.MeaningDeterminesStep` | residual/cic.py:134-138 | a step is determined by its meaning, so two accepted certificates with one ordering are equal |
| `Certificates.MinFill` | residual/cic.py:121-131 | succeeds exactly on supported graphs, with a certificate that verification accepts and whose ordering is greedy by fill, degree and name at every step |
| `Certificates.GreedyOrder` | residual/cic.py:121-131 | the greedy loop ends with a permutation of all vertices, each the best of those left |
| `Components.Explore` | residual/cic.py:144-151 | the worklist finds exactly the vertices reachable from its start |
| `Components.ConnectedComponents` | residual/cic.py:141-153 | returns exactly the connected components, sorted, disjoint, covering, and in order of their least members |
| `Constraints.PruningIsSound` | residual/cic.py:56-74 | a partial assignment that can be completed to a satisfying one is never pruned |
| `Constraints.PruningIsExact` | residual/cic.py:56-74 | a partial assignment is kept if and only if it is within the domains, every pair with both ends assigned holds, and the free variables of every sum can bring it down, and up, to what it must equal |
| `Constraints.TotalBounds` | residual/cic.py:64-73 | the least and greatest sums computed from domains bound the sum of every completion |
| `Constraints.CompleteCheckIsExact` | residual/study_tasks.py:56-68 | on complete assignments the incremental check agrees with the independent checker |
| `Constraints.InteractionGraph` | residual/cic.py:77-86 | fails exactly on invalid models; otherwise two variables are adjacent if and only if some constraint mentions both |
| `Constraints.ComponentSeparates` | residual/cic.py:195-199 | every constraint lies wholly inside or wholly outside a component |
| `Constraints.RestrictedIsValid` | residual/cic.py:195-199 | the restriction of a valid model to a component validates again, over exactly that component |
| `Constraints.SubmodelMeaning` | residual/cic.py:195-199 | a projected assignment satisfies the submodel if and only if the assignment satisfies the constraints inside the component |
| `Constraints.DecompositionIsLossless` | residual/cic.py:195-199 | an assignment satisfies the model if and only if each component's part satisfies its submodel |
| `Search.Searcher.Run` | residual/cic.py:171-185 | the backtracking method with its node counter, working assignment and exhaustion flag refines the budgeted reference search |
| `Search.UnlimitedIsExact` | residual/cic.py:171-185 | without a budget the search finds a satisfying completion, or there is none |
| `Search.LimitedRefinesUnlimited` | residual/cic.py:171-185 | with a budget the search gives the unlimited answer and node count if they fit, and otherwise stops with the budget spent |
| `Search.Feasibility` | residual/cic.py:163-192 | accepts exactly valid models with an exact ordering and a budget in range, and returns the decision that `SearchTrees.DecisionMeaning` characterises |
| `Search.FeasibilityIsExact` | residual/cic.py:163-192 | SAT carries a satisfying assignment, UNSAT means none exists, UNKNOWN occurs if and only if the budget is below what deciding takes, with all of it used |
| `Search.DecidedIsStable` | residual/cic.py:163-192 | raising the budget changes neither a decided answer nor its node count |
| `SearchTrees.DecisionMeaning` | residual/cic.py:163-192 | without a word about the search: let the trail be the nodes of the tree of partial assignments above which nothing is ruled out and before which, in domain order, no solution branches off; UNKNOWN if and only if the budget is smaller than the trail, as many nodes are counted as the trail has or the budget, and otherwise the answer is the lexicographically first solution, or there is none |
| `SearchTrees.AnswerIsFirst` | residual/cic.py:171-185 | from any node on, the search finds the first solution below it in domain order, or there is none |
| `SearchTrees.TrailOf` | residual/cic.py:171-185 | from any node on, the search counts each node of the trail below it exactly once |
| `Grouping.AllMembersPass` | residual/cic.py:262-268 | the staged loop over members passes if and only if every member's check passes |
| `Grouping.MemberContext` | residual/cic.py:253-255 | the context rebuilt for a member is its original dependency context over the flattened values |
| `Meaning.GroupMeaning` | residual/cic.py:257-269 | a compiled group check passes if and only if the value is complete, fits its part of the model and flattens to values that pass every member's own check |
| `Meaning.FamilyMeaning` | residual/cic.py:257-269 | the same for any dependency-closed family of group values, in both directions |
| `Meaning.FitsMeansModelHolds` | residual/cic.py:260-261 | all groups fit their parts of the model if and only if the flattened values satisfy the whole model |
| `Meaning.PreparePreservesMeaning` | residual/cic.py:238-298 | values for all groups pass every compiled check if and only if they are complete and their flattening passes every original check in its original dependency context and satisfies the whole model |
| `Meaning.BlockedGroupRejects` | residual/cic.py:245-251 | a group whose submodel is unsatisfiable rejects every value in every context |
| `Meaning.CompiledPrivacy` | residual/cic.py:291-297 | a compiled group is exportable only if each of its members was |
| `Meaning.PrivacyIsExact` | residual/cic.py:291-297 | a compiled group is exportable if and only if all its members are, and all members of the groups it depends on, directly or not |
| `Meaning.GroupDeclares` | residual/cic.py:291-297 | a group declares exactly the evidence of its members and exactly the groups that own what they depend on outside, is marked exportable if and only if all of them are, and has a solver if and only if all of them have |
| `Solving.GroupSolution` | residual/cic.py:282-290 | when the groups it depends on have values, the compiled solver of a group computes a value if and only if that value gives every member what the member's own solver computes over the flattened values, these included |
| `Solving.GroupIsBound` | residual/cic.py:271-296 | equal contract and equal revision of two compiled groups mean the same members with the same contracts, the same model, and the same editions and identities of all checks used |
| `Solving.GroupVerifier` | residual/cic.py:275-281 | a compiled check has an identity if and only if the checks of all members do, and is a judge if and only if one of them is |
| `Compiler.OrderMembers` | residual/cic.py:239-243 | the rounds terminate with every member once, each after all its dependencies inside the group |
| `Compiler.SomeoneIsReady` | residual/cic.py:239-243 | in an acyclic task some remaining member is always ready |
| `Compiler.PlanIsWellPlanned` | residual/cic.py:222-226 | components plus singletons partition the obligations, names are new, and every member has exactly one owner |
| `Compiler.SearchGroup` | residual/cic.py:244-251 | a component's search stays within what is left of the budget, and UNSAT is right about its submodel |
| `Compiler.SearchAll` | residual/cic.py:237-251 | each component is searched with what its predecessors left of the node limit, exactly the refuted ones are blocked, and each of those has no solution |
| `Compiler.BlockingIsComplete` | residual/cic.py:244-251 | when the node limit covers all components, a component is refuted if and only if it has no solution |
| `Compiler.ModelIsEvidence` | residual/cic.py:219-220 | every group that carries a part of the model declares the artifact that holds the model |
| `Compiler.Prepare` | residual/cic.py:202-299 | a task without a structural model is passed through unchanged; for one with a model the groups are the components of the interaction graph by least member, then every other obligation alone, under the generated names; preparation succeeds if and only if the structure is supported, those names are free and the quotient is acyclic; the plan then carries the whole model, and in the cic mode the certificate verifies and is greedy and exactly the groups refuted within the node limit are blocked |
| `Intervals.Merge` | residual/engine.py:324-332 | computes sorted, disjoint, non-adjacent intervals with the same coverage |
| `Intervals.NormalFormIsUnique` | residual/engine.py:324-332 | a set of lines has exactly one such normal form |
| `Intervals.AlreadySupplied` | residual/engine.py:456-463 | merging a request changes nothing if and only if every requested line was granted before |
| `Receipts.CanonicalIsSorted` | residual/receipts.py:59-81 | a list of parent references is canonical if and only if sorting leaves it alone |
| `Receipts.WriteThenRead` | residual/receipts.py:101-130 | reading an envelope just written returns the receipt, under both schema versions |
| `Receipts.ReadThenWrite` | residual/receipts.py:105-130 | writing what was read returns the envelope, and only constructible receipts are ever read |
| `Receipts.ValidateReceiptGraph` | residual/receipts.py:170-186 | accepts if and only if every node binds exactly its declared parents' hashes and the declarations are acyclic |
| `Receipts.ParentHashIsSmaller` | residual/receipts.py:83-99 | a parent's hash is a part of the child's |
| `Receipts.BoundGraphsAreAcyclic` | residual/receipts.py:170-186 | binding the exact parents already excludes a cycle, so the final cycle error cannot occur |
| `Bookkeeping.AcceptKeeps` | residual/engine.py:223-261 | accepting a passing value keeps every accepted value verified against the current accepted dependencies, and its receipts bound to its parents' |
| `Bookkeeping.StoredIsOffered` | residual/engine.py:207-217 | what was stored for an obligation is what the cache offers for it in the same context |
| `Bookkeeping.OfferedMeaning` | residual/engine.py:207-217 | the cache offers a value if and only if the row of the current key holds it and, where the check has an identity, carries the receipt that would be issued for that very value in this very context, up to engine and schema |
| `Bookkeeping.OtherReceiptIsAMiss` | residual/receipts.py:140-145 | a row whose receipt is for another value, key, verifier, revision, parent or verdict is a miss |
| `Bookkeeping.KeySaysAll` | residual/engine.py:173-190 | equal cache keys, of any two tasks, mean the same task, goal, contract, evidence, check revision and identity, and parents |
| `Bookkeeping.KeysDiffer` | residual/engine.py:180-190 | cache keys of different obligations never coincide, whatever has been accepted |
| `Bookkeeping.AcceptKeepsStock` | residual/engine.py:255-261 | after every acceptance the cache offers every accepted value again |
| `WarmRuns.WarmHit` | residual/engine.py:95-101 | an obligation accepted by an earlier run is offered from the cache with its old value, passes again and gets the same receipts |
| `WarmRuns.RepeatGoesOn` | residual/engine.py:223-261 | accepting keeps the run a repetition of the earlier one, with the cache still offering what is left of it |
| `Provenance.EqualReceiptsEqualCones` | residual/engine.py:173-205 | equal receipt hashes imply the same goal and the same ancestors with the same contract, evidence, verifier revision and identity, and value at each |
| `Provenance.LinkedSameRecord` | residual/receipts.py:83-99 | equal receipts record the same goal, contract, evidence, verifier revision and identity, and value |
| `Provenance.IssuedGraphIsValid` | residual/engine.py:242-253 | the station receipts that a run issues always form a valid receipt graph |
| `Provenance.StationIffIdentified` | residual/engine.py:192-201 | an accepted obligation has a station receipt if and only if its check and the checks of all that it depends on, directly or not, have an identity |
| `Provenance.ReceiptsSay` | residual/engine.py:242-253 | the receipts of an accepted obligation say its key, the digest of its value, its check and edition, and, for a station receipt, that the check passed and the receipts of exactly what it depends on |
| `Provenance.BlockedByAFailure` | residual/engine.py:120-126 | every unresolved obligation reaches, along dependencies, one that failed with all its own dependencies accepted |
| `Packets.CallAdded` | residual/engine.py:368-378 | a new call record adds its bytes, its expert call and its obligations to the totals exactly once |
| `Packets.ErrorRecorded` | residual/engine.py:386-396 | noting a failure on a call refunds nothing |
| `Packets.GrantShowsMore` | residual/engine.py:456-466 | a grant that is not refused shows strictly more lines |
| `Packets.ShownBound` | residual/engine.py:456-466 | no window shows more lines than the artifact has |
| `Packets.GrantsAreBounded` | residual/engine.py:456-466 | however often a provider asks, the grants for one provider, obligation and artifact are at most the lines of the artifact |
| `Engine.Harness.TryAccept` | residual/engine.py:223-261 | accepts if and only if the check passes in the current context; books, receipts and cache change accordingly and stay consistent, and a verdict that does not pass leaves its own code on record |
| `Engine.Harness.Consult` | residual/engine.py:207-217 | finds exactly what `Bookkeeping.OfferedMeaning` says the cache offers |
| `Engine.Harness.Settle` | residual/engine.py:94-115 | an obligation is accepted if and only if the cache offers a passing value or, where solvers are enabled, its solver computes one; what the earlier run accepted needs no solver; the reason on record is that of the last attempt |
| `Engine.Harness.RequestEvidence` | residual/engine.py:440-468 | lines are granted if and only if they are permitted and not all supplied before, exactly those are added to the window, and a denial records which condition failed |
| `Engine.Harness.ApplyRequests` | residual/engine.py:411-412 | after all requests of a reply every window covers exactly what it covered before and what permitted requests for still open obligations ask for under its key, all other windows are unchanged, and the reasons on record are those of the denials in order |
| `Engine.Harness.ShowArtifact` | residual/engine.py:281-287 | excerpts are in range, pairwise disjoint and cover exactly the seed and the grants |
| `Engine.Harness.BuildPacket` | residual/engine.py:263-320 | exactly which artifacts are listed, which lines of them are shown, and which dependency values and failures go along; whole artifacts only in full context, or inlined for the expert in some modes; and nothing private whenever the packet may leave the machine, on the inlined path too |
| `Engine.Harness.CarriesMeans` | residual/engine.py:263-320 | item by item: which artifacts are listed, which accepted values go along with which values, and which failures |
| `Engine.Harness.Offer` | residual/engine.py:359-378 | what is sent is that packet, and nothing is sent when a limit forbids it |
| `Engine.Harness.Reserve` | residual/engine.py:359-378 | a call is booked before it is made, within every limit, and remote bytes stay the sum of the remote call records |
| `Engine.Harness.NoteError` | residual/engine.py:386-396 | a failed call keeps its reservation |
| `Engine.Harness.ApplyUpdates` | residual/engine.py:409-410 | a proposed value is accepted if and only if it passes its check in the books before the reply, nothing else is accepted, and the guard against overwriting an accepted value cannot fire |
| `WarmRuns.AcceptKeepsSettled` | residual/engine.py:223-261 | accepting one obligation gives no other one that was tried a passing value in the cache or from its solver |
| `Engine.Harness.Round` | residual/engine.py:349-416 | one round with any reply or failure keeps all invariants; either a limit was met, or there is exactly one more call record, for its own obligations, and what came back is taken in: accepted is exactly what a documented answer proposes and its check passes, windows grow by exactly the permitted requests of a documented answer and by nothing else, and the reasons on record are those that the reply calls for; the rounds stop if and only if a limit was met or the provider abstained |
| `Engine.Harness.Work` | residual/engine.py:349-416 | each obligation appears in at most `rounds` more call records, of which there are at most `rounds`, and one that is not accepted has used them all in this role, unless it may not leave the machine, met a limit or was abstained on |
| `Engine.Harness.Dispatch` | residual/engine.py:334-347 | private and exportable obligations are served apart, so that every packet sent stays discreet; the groups of a compiled task are asked for one by one and anything else in one batch for each round; no obligation appears in more than `rounds` new call records, and one that is not accepted has used them all or is excused |
| `Engine.Harness.NextFrontier` | residual/engine.py:90-91 | the frontier is exactly what is unaccepted, untried and has all its dependencies accepted |
| `Engine.Harness.ServeFrontier` | residual/engine.py:94-118 | cache and solvers are tried for everything in the frontier before any provider is asked, and the local provider before the expert; everything left open has used its rounds with each or is excused |
| `Engine.Harness.Run` | residual/engine.py:85-119 | for any replies the run terminates in a fixpoint: accepted values are closed under dependencies, verified in their final contexts and receipted; what is not accepted was blocked, waits for something not accepted, or has a passing value neither in the cache nor from its solver and has used its rounds with every provider that the mode serves, unless it may not leave the machine, met a limit or was abstained on; budgets hold, no obligation is in more than local_rounds + expert_rounds call records, every accepted value has its source, and everything accepted before is accepted again |
| `Engine.Harness.WhereFrom` | residual/engine.py:85-119 | every accepted value was offered by the cache as it was before the run, computed by the solver of its obligation, or proposed for its obligation in the documented answer to a packet that was sent |
| `Sources.OfferedFromTheOutset` | residual/engine.py:207-217 | what the cache offers for an obligation that is not accepted it has offered from the outset: no run feeds itself through the cache |
| `Sources.AcceptKeepsSourced` | residual/engine.py:223-261 | accepting a value that has a source keeps the source of every accepted value, also where the row is stored |
| `Service.RoundServes` | residual/engine.py:349-416 | a round leaves everything open either asked for once more or excused, and when the rounds stop everything is excused |
| `Service.AttendedGoesOn` | residual/engine.py:90-119 | what was attended stays attended while later frontiers are served |
| `Results.Unresolved` | residual/engine.py:120-126 | accepted and unresolved partition the obligations, each with its reason |
| `Results.BlockedHasACause` | residual/engine.py:120-126 | every dependency-blocked obligation has an ancestor that is unresolved for another reason |
| `Results.RunTwice` | residual/engine.py:85-119 | over one cache, with any contents at first, any providers and blocked groups or none, everything the first run accepted is accepted by the second with the same value and receipts, and reaches neither solver nor provider |
| `Results.CompiledRunIsSound` | residual/engine.py:161-166 | whatever a run over the compiled task accepts flattens to values that pass the original checks in their original contexts |
| `Results.SolvableGroupIsAccepted` | residual/engine.py:103-114 | where solvers are enabled, a group that could be tried is accepted when what its members' own solvers compute passes every member's own check and fits the model |
| `Results.CompleteRunSatisfiesModel` | residual/engine.py:161-166 | when all groups are accepted the flattened values satisfy the whole model |
| `Results.BlockedIsNeverAccepted` | residual/engine.py:85-88 | a blocked group is in no run's books |
| `Results.PreparedIsRunnable` | residual/cic.py:202-299 | what preparation returns can be run, and whatever any run over it accepts is sound for the original task and model |
| `Results.RunPrepared` | residual/engine.py:85-119 | a run over a compiled task keeps all invariants of a run, ends in a fixpoint and is sound for the original task and model |
| `Results.RunPreparedTwice` | residual/engine.py:85-119 | a compiled task is rerun from the cache like any other, and both runs are sound |
| `Results.RunStructural` | residual/engine.py:60-66 | prepare and run: there is a run if and only if preparation compiles the task or passes it through with every check and solver registered; it ends in a fixpoint, is the plain run of a task that was passed through, and is sound for the original task and model of one that was compiled |
| `Goals.Verify` | residual/verifier.py:67-112 | the verdict is that every criterion's evaluator answers PASS, whatever the order; a judge is skipped if and only if an earlier criterion does not hold; the primary failure is absent if and only if the verdict passes, and otherwise the first criterion that does not hold |
| `Goals.ReportIsUnique` | residual/verifier.py:79-112 | that meaning determines the report |
| `Goals.FailsClosed` | residual/verifier.py:79-112 | a criterion passes if and only if its evaluator answers PASS, is undecided if and only if it answers UNKNOWN, and fails in every other case: not registered, raising, malformed or skipping |
| `Goals.JudgesRunLast` | residual/verifier.py:114-117 | in a valid goal a judge is consulted only if every mechanical and structural criterion holds |
| `Brakes.Brake.Update` | residual/brakes.py:54-170 | a brake that remembers exactly the events since its reset (passes, tokens, trailing fingerprints, a passing report) goes on doing so, and reports exactly the trip, with its action, that those call for |
| `Brakes.UpdatedRemembers` | residual/brakes.py:54-170 | the same of the reference step, for every clock reading |
| `Brakes.TailIsConstant` | residual/brakes.py:122-144 | the trailing run of a list, which the no-progress brake counts: its entries all equal the last one and the entry before it differs |
| `Brakes.FingerprintMeaning` | residual/brakes.py:131-136 | two tool invocations count as the same if and only if they were given the same fingerprint, or none and are the same call |
| `Loop.RunIsAccountable` | residual/loop.py:109-214 | any run with any brakes, worker and clock ends decided within max_passes or breaks down at the first unusable reply; SUCCESS if and only if the last candidate meets the goal with no abort or escalate trip, and then the tokens are known and below budget and the worker did not halt; a pass in which the worker halts is the last, and escalates; failing extensions abort before the first pass; ABORTED if and only if an abort trip is on record; pass and token counters of the brakes equal the controller's |
| `Loop.PassMeaning` | residual/loop.py:153-202 | what one pass leaves behind, in terms of the worker's reply: tokens, report and verdict, and an escalation if it halts |
| `Accounts.RunIsDocumented` | residual/loop.py:109-214 | any run, with any brakes, worker and clock, feeds its brakes exactly the events that the replies and the verdicts on them call for, in order; whatever any brake calls for at any event, and any reading of the controller's clock checks at or past the budget, is on record among the trips; there are three checks for every pass; and nothing is verified once tokens or time are used up |
| `Accounts.PassIsFaithful` | residual/loop.py:153-202 | the same for one pass |
| `Loop.OwnTokenCheckIsRedundant` | residual/loop.py:160-166 | with a standard budget brake the controller's own token trip is never a new one |
| `Loop.OwnPassCheckIsRedundant` | residual/loop.py:197-198 | with a standard pass-counting brake the controller's own last-pass trip is never a new one |
| `Loop.OnlyToolsAreObserved` | residual/loop.py:170-173 | feeding all observations is feeding the tool invocations among them |
| `Loop.ObservationsCannotSteer` | residual/loop.py:170-173 | two runs whose workers differ only in other observations end identically, under any brakes |
| `Controllers.Controller.FeedAll` | residual/loop.py:129-133 | every brake sees the event once, in order, and trips are recorded once per brake and action |
| `Controllers.Controller.RunAll` | residual/loop.py:109-206 | the pass loop computes the reference run, is accountable and documented, and leaving the loop without a decision is impossible |
| `QuietRuns.QuietRunEndsWithFirst` | residual/loop.py:109-214 | with the standard brakes and nothing to object to, the run succeeds at the first candidate that meets the goal, and is escalated after the last pass if none does |
| `Quarantine.NoDenialMeansAllowed` | residual/quarantine.py:143-153 | the decision is ALLOW if and only if every policy allowed |
| `Quarantine.AskingCounts` | residual/quarantine.py:264-276 | a list of policies that contains a budget and is allowed has used a slot within its limit |
| `Quarantine.AskedExactly` | residual/quarantine.py:143-153 | every policy in a list is asked once: a budget allows if and only if it was asked less often than its limit before, a host policy answers as it does, and a counter grows by one each time its budget is asked |
| `Quarantine.DenialsMeaning` | residual/quarantine.py:143-153 | the denials are exactly those of the policies that did not allow, each with its reason, in order |
| `Quarantine.BudgetIsExact` | residual/quarantine.py:264-276 | in every interleaving a budget allows a proposal if and only if it was asked less often than its limit before, denied proposals included |
| `Quarantine.StepKeepsConsistency` | residual/quarantine.py:113-226 | every critical section keeps phases, decisions, executions and the log of every hold consistent |
| `Quarantine.ExecutedOnceAndAllowed` | residual/quarantine.py:159-196 | in every interleaving each hold's executor runs at most once, and only after every policy asked about it allowed it |
| `Quarantine.LogOrder` | residual/quarantine.py:113-226 | in every interleaving a hold's log is a prefix of held, evaluated with exactly the denials of its verdict, and then executed after ALLOW or denied after DENY |
| `Quarantine.BudgetBoundsExecutions` | residual/quarantine.py:264-276 | in every interleaving at most k of the actions that a budget of k was asked about are executed, also when the budget is shared with others |
| `Quarantine.LogIsAppendOnly` | residual/quarantine.py:228-231 | the log only grows |
| `QuarantineStores.ExecutionIsExclusive` | residual/quarantine.py:161-184 | nothing that other threads do takes a hold out of execution before its own release ends it |
| `QuarantineStores.QuarantineStore.Hold` | residual/quarantine.py:113-124 | a new hold with an identity of its own, logged |
| `QuarantineStores.QuarantineStore.Evaluate` | residual/quarantine.py:132-157 | the first decision is kept and repeated; consumed or foreign holds are refused without effect |
| `QuarantineStores.QuarantineStore.Release` | residual/quarantine.py:159-196 | executes exactly the unconsumed allowed holds, once, whatever happens between its two critical sections |
| `QuarantineStores.DenialIsExclusive` | residual/quarantine.py:202-216 | nothing that other threads do, to this hold or others, changes a hold between the decision and the logging of its denial |
| `QuarantineStores.QuarantineStore.Deny` | residual/quarantine.py:198-226 | denies exactly the unconsumed denied holds when a reason is given, and logs it, whatever other threads do meanwhile |
| `QuarantineStores.QuarantinedProvider.Generate` | residual/integration.py:45-66 | every call is held, evaluated and then executed once or denied; the inner provider is called if and only if every policy allowed, and no contract error can occur |
| `Chains.VerifyChain` | observation_layer/core.py:119-134 | accepts if and only if every digest, link, schema, kind and trace is right, identities are distinct, and head and count match where given |
| `Chains.HeadFixesChain` | observation_layer/core.py:119-134 | two linked chains with the same head are equal |
| `Chains.AcceptedIffPrefix` | observation_layer/core.py:119-134 | part of an emitted chain is accepted if and only if it is a prefix without a repeated identity |
| `Chains.AnchoredIffComplete` | observation_layer/core.py:119-134 | with the head anchored, exactly the whole chain is accepted |
| `Chains.ObservationSequencer.Commit` | observation_layer/core.py:108-113 | whatever a filter changed, trace and link are the sequencer's, and the head advances |
| `Chains.ObservationBus.Emit` | observation_layer/bus.py:17-34 | every emission is counted once as emitted, dropped or failed, as emitted if and only if it was sealed and the sink did not raise; what is sealed and not stored leaves a gap in the chain that is never renumbered |
| `Chains.ObservationBus.LossIsDetected` | observation_layer/bus.py:27-34 | what the sink holds verifies against the bus's head if and only if the sink stored everything sealed and no identity repeats, and without the head if and only if it lost only a tail; the counters are right about loss if and only if the sink never raised and lost nothing, or raised and lost something |
| `Chains.SilentLoss` | observation_layer/sinks.py:131-135 | a sink that drops without raising: no error is counted, everything counts as emitted, and the anchored check rejects |
| `Chains.FalseAlarm` | observation_layer/bus.py:27-34 | a sink that stores and then raises: the counters show a loss, and the anchored check accepts everything that was sealed |
| `Chains.RepeatedIdentity` | observation_layer/bus.py:20-27 | a filter that repeats an identity: nothing is missing from the chain, and verification rejects it |
| `Ledgers.Ledger.Add` | residual/storage.py:40-44 | appends one event, linked to the head |
| `Ledgers.VerifyLedger` | residual/storage.py:50-64 | accepts if and only if every line reads, the events are numbered and linked, the run is complete, and the root is the expected one |
| `Ledgers.WriteThenVerify` | residual/storage.py:46-64 | a ledger that is written out is accepted, with its own head as root, if and only if it is complete and no event's text holds a line separator |
| `Ledgers.CutLedger` | residual/storage.py:46-57 | a complete run that is rejected when it is read back, because a line separator in the data of one event cuts its line in two |
| `Ledgers.RootFixesLedger` | residual/storage.py:50-64 | two linked ledgers with the same root are equal |
| `Ledgers.SameRootSameLedger` | residual/storage.py:50-64 | two stored ledgers that are accepted with the same root are equal line by line |
| `Grants.InferredOk` | demo/vm/provider-session.js:53-53 | registering a call keeps each call either unanswered and timed, or answered once |
| `Grants.EndedOk` | demo/vm/provider-session.js:54-54 | ending a grant keeps each call either unanswered and timed, or answered once |
| `Grants.EndAnswersAll` | demo/vm/provider-session.js:54-54 | ending a grant leaves no call unanswered if and only if the table of waiting calls has as many entries as there are timers running |
| `Grants.ReceivedOk` | demo/vm/provider-session.js:51-51 | a response answers at most the one call that waits for it |
| `Grants.ExpiredOk` | demo/vm/provider-session.js:53-53 | a timer answers its own call and no other |
| `GrantProtocol.StepKeeps` | demo/vm/provider.js:86-133 | every step of either end, with first-in-first-out channels and grants that may replace one another, keeps requests, grants, jobs and messages in agreement |
| `GrantProtocol.CallsAreAuthorised` | demo/vm/provider.js:93-107 | in every run the model calls for requests made under a grant are at most its authorised calls, and so are those that the provider charges to it |
| `GrantProtocol.DispatchedOnce` | demo/vm/provider.js:93-107 | a request identifier is dispatched at most once among the requests made under a grant, and at most once among those charged to it |
| `GrantProtocol.NoSuccessAfterRevocation` | demo/vm/provider.js:109-126 | no successful reply is produced for a grant after its revocation |
| `GrantProtocol.AnsweredAtMostOnce` | demo/vm/provider-session.js:51-54 | every call of infer is answered exactly once, or is unanswered with its timer running |
| `GrantProtocol.TimersAnswerAll` | demo/vm/provider-session.js:53-53 | from any point of any run the running timers are enough to answer every call |
| `GrantReplies.OwnReply` | demo/vm/provider-session.js:51-53 | when a call is registered, no reply to another request can ever resolve it if and only if nothing under way at that moment, neither a request nor a job nor a response, carries its mission and identifier |
| `GrantReplies.OwnReplies` | demo/vm/provider-session.js:51-53 | in a run in which no mission is granted twice, every reply answers the request of the call that it resolves |
| `GrantReplies.ReusedIdentifier` | demo/vm/provider-session.js:51-53 | a run in which a mission is granted twice, reuses an identifier, and a late reply answers the wrong call |
| `GrantCharges.OwnCharge` | demo/vm/provider.js:89-96 | when a grant is begun, requests made under it can only ever be charged to it if and only if no other grant with its mission and model, and a call left, can be in place at the provider when it arrives there |
| `GrantCharges.ReplacedGrant` | demo/vm/provider.js:89-96 | a run in which a request is charged to the grant that its own had replaced, because the provider did not take the new one |
| `GrantCharges.OwnCharges` | demo/vm/provider.js:89-96 | in a run in which each grant is ended before the next begins, every model call is charged to the grant that its request was made under |
| `GrantCharges.EndAnswersEveryone` | demo/vm/provider-session.js:54-54 | in such a run ending a grant answers every call |
| `GrantCharges.LeftWaiting` | demo/vm/provider-session.js:52-54 | a run in which a second grant reuses an identifier, and its end leaves the first call to its timer |
| `GrantEnds.ProviderSession.Begin` | demo/vm/provider-session.js:52-52 | throws if and only if there is no connection or the budget is invalid; otherwise a new grant under which nothing was asked takes the place of any that there was, and no call changes |
| `GrantEnds.ProviderSession.Infer` | demo/vm/provider-session.js:53-53 | a call is sent if and only if it is within the grant and its identifier is new to it, and then waits unanswered with a timer; otherwise it is answered once at once; no earlier call changes, and never more is asked than the grant authorises |
| `GrantEnds.ProviderSession.End` | demo/vm/provider-session.js:54-54 | every call on the table of waiting calls is cancelled exactly once, no other changes, and the grant is revoked; every call is answered then if and only if the table had an entry for every running timer |
| `GrantEnds.ProviderSession.Receive` | demo/vm/provider-session.js:51-51 | the one call waiting for the response's identifier and mission gets it as its only answer, and no other call changes |
| `GrantEnds.ProviderSession.FireTimer` | demo/vm/provider-session.js:53-53 | the timer's own call is answered once, and no other call changes |
| `GrantEnds.ProviderPanel.Receive` | demo/vm/provider.js:86-96 | a request is put to work if and only if the panel is signed in, idle, in time and within its grant, and is otherwise answered at once without success; never more is admitted than the grant authorises |
| `GrantEnds.ProviderPanel.Dispatch` | demo/vm/provider.js:99-107 | one model call, or a refusal |
| `GrantEnds.ProviderPanel.Complete` | demo/vm/provider.js:107-132 | one reply to the job's request, with success if and only if the result is good and the grant it was admitted under is unchanged |
| `GrantEnds.Bridge.Perform` | demo/vm/provider-session.js:46-56 | the two ends joined by their channels perform every step of the protocol exactly as the state machine does, so that its theorems hold of them |
| `Sessions.AlwaysCapped` | demo/cloud_gateway/server.py:124-169 | for every sequence of creations, expiries and revocations with clock readings of any age, any 3600-second span of creation times holds at most the hourly cap, and at any time at most the active cap of sessions is usable |
| `Sessions.ActiveIsCapped` | demo/cloud_gateway/server.py:131-143 | the active count at a time no earlier than any creation is within its cap |
| `Sessions.BudgetIsConserved` | demo/cloud_gateway/server.py:172-183 | tokens granted and tokens left add up to MAX_TOKENS, requests granted and left to MAX_REQUESTS, and none is negative |
| `Sessions.NoGrantAfterTheEnd` | demo/cloud_gateway/server.py:172-191 | no reservation follows a revocation, and none is granted on a clock reading past the expiry |
| `Sessions.RevokedIsFinal` | demo/cloud_gateway/server.py:114-121 | a session revoked by its owner or by the cleanup is granted nothing more |
| `Sessions.NoProfileIsForgotten` | demo/cloud_gateway/server.py:94-99 | every profile that exists upstream is used by a live session, or its deletion is still owed or failed, or the reply that created it could not be read; for every revoked session a deletion is owed or was attempted |
| `Sessions.Gateway.CleanupExpired` | demo/cloud_gateway/server.py:114-121 | afterwards exactly the sessions past their expiry at the reading used have been revoked, nothing else about any session has changed, and the deletion of every profile so revoked is owed |
| `Sessions.Gateway.NewSession` | demo/cloud_gateway/server.py:124-169 | issues a session if and only if fewer than the active cap are usable, fewer than the hourly cap were created in the last hour, and every supplier delivered; no other session changes |
| `Sessions.Gateway.ReserveTokens` | demo/cloud_gateway/server.py:172-183 | reserves exactly max(1, min(requested, MAX_OUTPUT)) tokens if and only if the session is live and within budget, and otherwise changes nothing |
| `Sessions.Gateway.RevokeSession` | demo/cloud_gateway/server.py:186-191 | an existing session is revoked and the deletion of its profile owed; an unknown token changes nothing |
| `Sessions.Gateway.DeleteProfile` | demo/cloud_gateway/server.py:94-99 | a deletion that is owed is attempted, and either works or is on record as failed |

## Left out

- Provider HTTP adapters, signing, URL validation and the router: network clients of services outside the repository.
- Mission Control, preview, diagnostics, service workers, WebVM patching and smoke scripts: user interface and I/O.
- Qualification, soak, publishing, export and status scripts: orchestration of processes and files.
- SHA-256, JSON text, SQLite and wall-clock durations themselves; only what the code relies on them for.
- Regular expressions for identifiers, type checks and most constructor validation: the datatypes already exclude such values.
- The heuristic that decides by size whether evidence is inlined (`residual/engine.py:310-320`): either choice may be made at any time.
- The order of providers within `_dispatch` batches and the metrics of a run (timings, prices, usage): they decide nothing that is proved here.
- Ledger entries written by the harness during a run: `Ledgers` treats the ledger on its own.
- Engine.Harness.Consult: a cached value that is not JSON cannot occur in the model, since rows hold values and unreadable rows are misses.
- Brakes.Brake.Update: trips do not record the digest of the triggering event, which nothing reads; a foreign brake is a function of the events it has seen, and does not raise.
- Controllers.Controller.RunAll: emission to lifecycle subscribers and extensions is not modelled, except that loading extensions may fail; the same brake object is not listed twice.
- Goals.Verify: durations are not modelled.
- Compiler.Prepare: the node limit is within the bound that the limits of a run enforce; the size limit on the model's text is not modelled.
- Chains.ObservationBus.Emit: a filter's observation has the current schema and a known kind, as its constructor enforces; a sink stores an observation at most once and in the order of emission.
- Sessions.AlwaysCapped: the configured limits are taken to be non-negative.
- QuarantineStores.QuarantineStore.Evaluate: policies do not call back into the store while it holds its lock.
- Reopening the provider's channel, its progress messages and the display of states: a channel is opened once.
- Engine.Cache: SQLite is a map from keys to rows.
- Sessions.Gateway.NewSession: the calls to the upstream services happen within the critical section, as in the source, and their results are arguments.
- The denylist and path policies: policies are arbitrary here, so that what is proved of quarantine holds for these too.
- Study reports: tables computed from finished runs, which no run depends on.
- The Factory, Station, DSM and cluster layers: separate programs around the harness with state of their own; nothing in the parts modelled here calls them.
