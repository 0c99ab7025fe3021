# A verified model of gospr

gospr compiles a small functional language into state-based CRDTs. A vector type maps node ids to
slots; its merge function and its updates are written in the language, type-checked, and proved
convergent before they may be deployed; the runtime then interprets the same terms and replicates
the vectors by gossip and by quorum messages. This project models those parts in Dafny and proves
what the repository promises of them.

The central chain:

1. A program the checker accepts evaluates without error (`TypeSound`, `Checker`).
2. The prover's lowering of a term means what the interpreter computes (`LowerCorrect`).
3. So if the solver confirms the prover's goals, the runtime merge is a join on slots of the
   declared type and every update is inflationary (`Convergence`), and what the builder deploys
   meets that theorem (`Build`).
4. So merging replica states is a join of states, updates only grow them, and the wire form loses
   nothing (`ReplicaStates`).
5. So, over every run of the cluster with lost, delayed, duplicated and reordered messages, slots
   belong to their owners, quorums are honest, reads see earlier majority writes, and replicas
   converge (`ReplicationRuns` and `ReplicationGrowth`, joined to step 3 by `SlotLattices`), and
   the node's handlers are those steps (`Nodes`).

Two instances close the chain on the documentation's own examples: the counter (`Counter`) and the
last-writer-wins register (`RegisterProof`) are accepted by an exact solver, and in the register
the latest write is what is read (`LastWriterWins`).

Types are read in two ways. Unsigned, a number type says only that the value is a number: that is
enough to never meet a runtime error, and steps 1 to 3 hold in it whatever signs a program
multiplies. Signed, a number type also says which numbers: that is what makes merge and the updates
stay in a declared type such as `rat0+`, and it is asked only where that is concluded. Acceptance
speaks of the functions merge and the updates can reach; the rest of a plan is free.

## Reading the model

| file | module | what it holds |
|---|---|---|
| options.dfy | Options | an optional value |
| numtypes.dfy | NumTypes | the numeric subtype lattice and its meaning |
| syntax.dfy | Syntax | resolved terms, checker types, element descriptors |
| utf8order.dfy | Utf8Order | byte order of UTF-8 against code point order |
| interp.dfy | Interp | the runtime interpreter |
| typerules.dfy, typesound.dfy, inclusion.dfy | TypeRules, TypeSound, Inclusion | typing rules, soundness, exact inclusion of types |
| calls.dfy | Calls | call paths, what they reach, call cycles |
| memos.dfy, visits.dfy, checker.dfy | Memos, Visits, Checker | the checker: what its memo means, its visits, the class and whole programs |
| symbolic.dfy, lowering.dfy | Symbolic, Lowering | goals and their meaning, the lowering |
| lowercorrect.dfy, lowershape.dfy, slotsymbols.dfy | LowerCorrect, LowerShape, SlotSymbols | the lowering preserves meaning and types |
| prover.dfy, convergence.dfy, build.dfy | Prover, Convergence, Build | obligations, the convergence theorem, the builder that meets it |
| vector.dfy, states.dfy, foldorder.dfy | Vectors, ReplicaStates, FoldOrder | the vector class, states as a lattice, fold order |
| counter.dfy, lww.dfy, registertypes.dfy, registerproof.dfy | Counter, LastWriterWins, RegisterTypes, RegisterProof | the documented counter and register: run, typed and proved |
| lattice.dfy, slotlattice.dfy | Lattices, SlotLattices | what replication needs of a slot, and who provides it |
| replication.dfy, replsafety.dfy, replsteps.dfy, replruns.dfy, replgrowth.dfy | Replication, ReplicationSafety, ReplicationSteps, ReplicationRuns, ReplicationGrowth | the protocol, its invariants, their preservation, the theorems |
| node.dfy, firsttouch.dfy, decimals.dfy | Nodes, FirstTouch, Decimals | the node class, first-touch races, document keys |
| typereg.dfy, parsing.dfy | TypeReg, Parsing | type resolution, the parser combinators and the grammar |

## Modelling decisions

- Rationals (`big.Rat`) are Dafny reals, strings are sequences of Unicode scalar values, and a
  text that is not valid UTF-8 is an absent value. RFC 3629 section 3 gives the encoding whose
  byte order `Utf8Order` compares.
- A function value is its callee with the arguments bound so far, in place of a closure. It is
  always applied where it was evaluated, so it carries no depth of its own.
- A whole vector lists its slots in the order a `reduce` visits them. The order is arbitrary, and
  every theorem holds for all of them.
- The SMT solver is a parameter: a function from goals to yes or no, assumed only to say yes to
  valid goals. A goal is valid when its script is well-sorted and every valuation that meets its
  declarations and hypotheses satisfies its conclusion. The solver may give up on any goal.
- Solver constants are structured names (a leaf path under a root, a parameter index, a reduce
  number) in place of the printed identifiers.
- The prover clears its reduce accumulators just after lowering an update's function; the model
  clears them just before. The two agree because no parameter is a vector.
- The protocol takes one atomic step per lock region, with one exception: taking a gossip snapshot,
  and merging a received one, treat all documents in one step, where the code takes each document's
  lock in turn (node/node.go:438-466). What other steps do between two documents of one gossip
  message is therefore not modelled; no operation reads more than one document. Taking a snapshot,
  registering its request and broadcasting it are one step: the broadcast only adds messages, which
  may be delayed anyway. A timeout is a step that may happen whenever an operation waits. Every
  node's peers are all the other members, each registered once, which is how main.go and
  sandbox/cluster.go wire them.
- All nodes that are deployed run one plan; requests under another plan's fingerprint may be in
  the network. Gossip carries no fingerprint in the code either, so mixing plans is outside the
  theorems.
- `counted`, `holders`, `must`, `hist`, `reqs`, `served` and `commits` are records that no step
  reads; they exist to state the theorems.
- `reached` compares an exact quotient with an exact ratio, where the code compares floats.

Four places where the code does less than one might expect:

- The product of two numbers of unknown sign is typed non-negative. The rule is sound exactly
  elsewhere (`TypeRules.NumBinSoundExactly`).
- Unifying two vector types keeps the first unread. No value is lost exactly when the first element
  type includes the second (`Inclusion.UnifyVectorsExactly`).
- A call cycle through a function without a `-> type` is inferred through an unknown that unify
  discards. An unknown is handed out, in some order of an accepted program, exactly when there is
  such a cycle (`Checker.LeaksExactly`); without one the checker is exact (`Checker.CheckedExactly`).
  With one it may be wrong, and `Checker.CycleUnsound` is an accepted program where it is. Which of
  the leaking programs happen to be typed right is not characterised.
- A query's folds are not checked. Its result is free of the map's order exactly when any two slots
  may be exchanged (`FoldOrder.OrderFreeExactly`), and `FoldOrder.UncheckedFoldDepends` is an
  accepted query where they may not; the comment at crdt/vector.go:584 says otherwise.

## Model

| member | source | states |
|---|---|---|
| NumTypes.SubIsInclusion | numtype/numtype.go:87-147 | subtyping is inclusion of the sets of rationals, except that it does not see that the rational zero type is inside integer types |
| NumTypes.JoinIsLub | numtype/numtype.go:103-134 | the join of two number types is their least upper bound |
| Utf8Order.ByteOrderIsCodePointOrder | crdt/vector.go:717-732 | comparing strings bytewise over UTF-8 is comparing them code point by code point |
| TypeRules.NumBinSoundExactly | builder/checker.go:280-369 | the sign and domain rule of an arithmetic primitive contains every result exactly when it is not a product of two unknown signs |
| Inclusion.IncludesExactly | builder/checker.go:192-226 | a decidable structural relation holds exactly when every value of one type is a value of another |
| Inclusion.SubTypeExactly | builder/checker.go:192-226 | assignability of concrete types is inclusion of values: always sound, and complete unless the smaller type contains a rational known to be zero |
| Inclusion.UnifyVectorsExactly | builder/checker.go:1002-1003 | unifying vectors of two element types loses no value exactly when the first element type includes the second |
| TypeSound.UnifyKeepsRight | builder/checker.go:970-1005 | the common type of guard results contains the values of the second branch, vectors of unrelated types apart |
| TypeSound.ReduceTypeSound | builder/checker.go:833-884 | the typing loop of reduce ends with a type that contains the initial type and is closed under the fold |
| TypeSound.ReduceCapIrrelevant | builder/checker.go:862-882 | the loop reaches its fixpoint within four rounds, so the cap of sixteen never decides the type |
| TypeSound.TypeOfShape | builder/resolve.go:196-208 | a typed term's remaining parameters are exactly the arguments arityOf says it still expects |
| TypeSound.EvalSound | builder/checker.go:644-737 | type soundness, in both readings: a typed term evaluates to a value that fits its type or exceeds the depth limit, and meets no other error; the signed reading adds the signs |
| TypeSound.ApplySound | crdt/vector.go:626-645 | applying a typed function value to typed arguments, saturating it or not, is as sound, in both readings |
| Calls.ClosureIsReachable | builder/checker.go:667-676 | the closure of a function is what call paths from it reach |
| Calls.RankExists | builder/checker.go:521-534 | functions can be ranked along calls, level only between annotated ones, exactly when no call path returns to an unannotated function |
| Visits.VisitDone | builder/checker.go:644-737 | a visit types its term under the memo it leaves, restores its marks, and rejects nothing a consistent table types, unless an unknown was handed out |
| Visits.VisitFnDone | builder/checker.go:500-538 | a function is explained by its annotation or by its body, checked once, and no unknown escapes unless a function in progress was reached |
| Checker.Checker.TypeOfTerm | builder/checker.go:644-737 | the checker's method makes that visit, memo and all, whether or not an unknown is handed out |
| Checker.Checker.InferReturn | builder/checker.go:500-538 | so does its visit of a function |
| Checker.TypeOfFold | builder/checker.go:862-884 | the imperative widening loop computes the fold's type |
| Checker.Checker.CheckAll | builder/builder.go:109-115 | checking a plan's functions in order answers what the visits answer, and a consistent table of all functions unless an unknown was handed out |
| Checker.CheckedExactly | builder/builder.go:109-115 | with no call path back to an unannotated function, checking in any order accepts a program exactly when a consistent table of return types exists, and computes it |
| Checker.LeaksExactly | builder/checker.go:521-538 | a program accepted in every order never has an unknown handed out exactly when no call path returns to an unannotated function |
| Checker.CycleUnsound | builder/checker.go:521-534 | the checker accepts a program through an unannotated cycle with a table by which a function is non-positive, and the function returns one |
| LowerCorrect.LowerPreserves | prover/prover.go:128-347 | the lowered symbol denotes what evaluation yields, through partial application, inlining, guards, struct ite and reduce, and evaluation never exceeds the depth limit |
| LowerCorrect.ReduceDominates | prover/prover.go:373-488 | folding a recognised fold over any vector is on the right side of the initial value and of every slot's projected field, and equals one of them |
| LowerCorrect.FoldStep | prover/prover.go:423-458 | one step of a recognised fold is its operator on the accumulator and the projected slot, and fails exactly when either is no number |
| LowerShape.LoweredShape | prover/prover.go:128-347 | a typed term lowers to a symbol with the fields its type has |
| SlotSymbols.GoalEquality | prover/smt.go:106-120 | leafwise equality of two symbols is equality of the runtime values they stand for |
| Prover.Prove | prover/prover.go:593-699 | the loop says yes only if every obligation of merge and of every update was discharged |
| Convergence.MergeIsJoin | prover/prover.go:593-656 | if the prover accepts, the runtime merge never fails on typed slots, stays in their shape, and is commutative, associative and idempotent, whatever signs are multiplied |
| Convergence.MergeIsTypedJoin | builder/checker.go:598-642 | and, in the signed reading, the merged slot inhabits the element type |
| Convergence.UpdateIsInflationary | prover/prover.go:658-698 | if the prover accepts, every local or write update of a typed slot, in any typed vector holding it, yields h with merge(x, h) = h |
| Convergence.UpdateIsTyped | builder/checker.go:598-642 | and, in the signed reading, h inhabits the element type |
| Build.DenotedOk | builder/typereg.go:95-290 | whatever a type definition denotes has distinct field names at every level, as the prover's slot symbols need |
| Build.LiveTyped | builder/checker.go:598-642 | what was checked under the whole table is checked under the part of it that merge and the updates reach |
| Build.BuildPlan | builder/builder.go:55-279 | building resolves the types, checks the functions, and checks and proves each vector type; success leaves all of that established for every model |
| Build.BuiltIsAccepted | builder/builder.go:55-279 | a built model meets the convergence theorem, under what merge and the updates reach and whatever the rest of the plan does |
| Counter.CounterAccepted | prover/prover.go:593-699 | the documented counter is accepted by the solver that says yes to exactly the valid goals |
| Counter.SumRejected | prover/prover.go:640-656 | no sound solver lets a sum pass as a merge |
| RegisterTypes.ModelIsTyped | docs/examples.md:182-206 | the documented register type-checks with versions kept non-negative integers |
| RegisterProof.LawsValid | prover/prover.go:640-656 | the three goals of its merge, guards and struct lowered to ite, are valid |
| RegisterProof.SetIsProved | prover/prover.go:658-698 | the goal of its write, a reduce with its bounds, is built and discharged |
| RegisterProof.RegisterAccepted | prover/prover.go:593-699 | the documented register is accepted by the solver that says yes to exactly the valid goals |
| RegisterProof.RegisterIsJoin | node/node.go:473-495 | so its slots are a lattice under its merge, as replication needs |
| Vectors.VectorCRDT.Apply | crdt/vector.go:116-163 | an update replaces the own slot by its result on the own slot or on the whole vector with the own slot present, or changes nothing |
| Vectors.VectorCRDT.MergeRemote | crdt/vector.go:237-267 | the loop computes the slot-wise merge with absent slots as bottom, and one failing slot leaves the state untouched |
| Vectors.VectorCRDT.MergeWire | crdt/vector.go:314-324 | a snapshot merges exactly when every slot decodes and merges, and otherwise changes nothing |
| Vectors.VectorCRDT.SnapshotWire | crdt/vector.go:283-291 | every slot is encoded |
| Vectors.VectorCRDT.Query | crdt/vector.go:170-200 | a query is its body applied to the current vector in some order, and changes nothing |
| ReplicaStates.ZeroTyped | crdt/vector.go:95-110 | the default of an absent slot inhabits the element type |
| ReplicaStates.DecodedTyped | crdt/vector.go:333-389 | whatever decodes from the wire inhabits the element type, nested fields included |
| ReplicaStates.WireRoundTrip | crdt/vector.go:293-389 | a slot survives encoding and decoding exactly when it inhabits the element type |
| ReplicaStates.WireMergeIsMerge | crdt/vector.go:310-324 | merging a typed state over the wire is merging it in process |
| ReplicaStates.MergeIsLub | crdt/vector.go:233-267 | merging two states yields their least upper bound |
| ReplicaStates.UpdateGrows | crdt/vector.go:116-163 | an update whose parameters bind never fails, stays in the element type, leaves other slots alone and only grows the state |
| ReplicaStates.RunInvariant | crdt/vector.go:116-389 | in every run of updates, merges and wire merges from the empty state, every slot inhabits the element type and states only grow |
| ReplicaStates.QuerySound | builder/checker.go:540-579 | a checked query on a typed state returns an encodable value of its declared type or exceeds the depth limit |
| ReplicaStates.StampExceedsAll | crdt/vector.go:139-161 | one more than a recognised maximum exceeds the version of every slot seen, the default own slot included |
| FoldOrder.ReduceLoop | crdt/vector.go:584-592 | the loop folds the slots in some order of the map |
| FoldOrder.OrderFreeExactly | crdt/vector.go:584-592 | the order never matters exactly when any two slots may be exchanged at any accumulator |
| FoldOrder.EveryOrder | crdt/vector.go:584-592 | then any two enumerations of one vector fold to one outcome, failures included |
| FoldOrder.ArithmeticOrderFree | crdt/vector.go:650-677 | + * - max and min fold to the same outcome in every order |
| FoldOrder.ProjectedOrderFree | prover/prover.go:416-458 | so does every projected max or min the prover recognises |
| FoldOrder.MergeOrderFree | crdt/vector.go:584-592 | so does a proven merge on typed slots |
| FoldOrder.UncheckedFoldDepends | builder/checker.go:540-579 | the checker accepts a program and a query that answers the slot visited last, so one typed state has two answers |
| LastWriterWins.MergePicksLater | docs/examples.md:186-193 | evaluating the documented merge picks the higher version, then the greater text |
| LastWriterWins.LaterIsJoin | docs/examples.md:207-208 | that choice is a join |
| LastWriterWins.SetWrites | docs/examples.md:195-197 | Set writes the text with one more than the highest version seen, the default own slot included |
| LastWriterWins.LatestWriteWins | docs/examples.md:182-206 | after a node that has seen the register sets a text, reading returns that text, in every order of the slots |
| SlotLattices.AcceptedIsJoin | node/node.go:473-495 | an accepted model's merge is the join the protocol needs |
| SlotLattices.MergedIsJoin | crdt/vector.go:237-267 | merging typed states is joining documents slot by slot |
| SlotLattices.UpdateIsInflationaryStep | node/node.go:359-382 | what an accepted update writes is a value the protocol lets a node write |
| Replication.HalfIsMajority | node/node.go:721-734 | a ratio of a half or more asks for a strict majority, exactly a half for no more, and `all` for every node |
| Replication.MajoritiesMeet | node/node.go:764-770 | two strict majorities share a member |
| ReplicationSafety.MergeGenuine | node/node.go:473-495 | merging slot values their owners held yields slot values their owners held and never changes the merging node's own slot |
| ReplicationSteps.StepKeeps | node/node.go:497-649 | every step of every node keeps all invariants of the protocol |
| ReplicationSteps.NeverDropped | node/node.go:603-606 | a first-time ack from a peer always finds room in the queue |
| ReplicationRuns.Ownership | node/node.go:451-515 | in every run each copy of a slot is a value its owner held, below what the owner holds now |
| ReplicationRuns.OwnSlotIsOwn | node/node.go:451-515 | no step but the owner's own update changes an owner's slot |
| ReplicationRuns.HonestQuorum | node/node.go:798-821 | a successful push is held by enough distinct members, each of which merged that very request's snapshot |
| ReplicationRuns.HonestCount | node/node.go:580-608 | the running count is the number of distinct peers counted, whatever late, repeated, foreign or misdirected acks arrive |
| ReplicationGrowth.HonestGather | node/node.go:823-848 | when a pull succeeds, enough distinct peers each acked that very request with a snapshot that decodes, and the coordinator holds all of each |
| ReplicationGrowth.Growth | node/node.go:451-515 | in every run nothing shrinks: messages sent, records, histories and documents only grow |
| ReplicationRuns.ReadSeesPush | node/node.go:757-800 | a majority read begun after a majority push succeeded, an update's or an earlier read's write-back, answers from a state that holds what was pushed, whichever nodes coordinate |
| ReplicationGrowth.ReadSeesWrite | node/node.go:757-800 | so the value a majority update wrote is at or below what every later majority read answers at the writer's slot |
| ReplicationRuns.Converged | node/node.go:451-515 | a replica is never ahead of the owners and equals them exactly when it holds all they hold |
| ReplicationRuns.Convergence | node/node.go:497-515 | once updates stop and the owners' values have reached every node on any path, all replicas are equal |
| ReplicationRuns.GossipReaches | node/node.go:518-545 | delivering gossip brings the receiver above everything in it |
| ReplicationGrowth.ChainReaches | node/node.go:497-564 | a chain of deliveries, by gossip or by pushes, each sent after the last arrived, brings its end above its start |
| ReplicationGrowth.ConvergenceByDelivery | node/node.go:497-564 | once updates stop and a chain of deliveries leads from every node to every other, all replicas equal the owners |
| Nodes.ReachedValid | node/node.go:560-649 | in every state the protocol reaches, a node's pending requests were minted by it and each queue holds one ack per peer seen |
| Nodes.MergeKeeps | node/node.go:653-678 | merging a snapshot loses nothing, takes all of it in, and keeps the own slot if the snapshot is not ahead of its owner |
| Nodes.AckKept | node/node.go:580-608 | a first-time ack is always queued, and no queue outgrows the peers |
| Nodes.GatherMeans | node/node.go:857-884 | collecting uses a prefix of the queue, counts those that merge, leaves the node above each of them, and succeeds exactly at the first count that meets the ratio |
| Nodes.GatherIsRun | node/node.go:857-884 | collecting is the run of the protocol's collect steps of that operation: the same documents, request, verdict and count |
| Nodes.Node.Initialize | node/node.go:239-256 | deploys the plan and changes nothing else |
| Nodes.Node.HandleSyncPush | node/node.go:552-564 | makes the protocol's push step; the documents grow, the own slot is kept, and an ack is sent only with the snapshot held |
| Nodes.Node.HandleSyncPull | node/node.go:566-578 | answers with the node's snapshot and changes nothing |
| Nodes.Node.HandleSyncAck | node/node.go:580-608 | makes the protocol's ack step: an ack is queued once per peer, for a pending request about the same document, and the queue never outgrows the peers |
| Nodes.Node.MergeIntoCollection | node/node.go:653-678 | merges a snapshot into a document, creating nothing for an untouched, empty one; the node then holds all of it and has lost nothing |
| Nodes.Node.MergeSnapshot | node/node.go:451-466 | the loop merges every non-empty document the plan knows, leaves the rest, and loses nothing |
| Nodes.Node.Register | node/node.go:624-649 | mints an id that no request of the node, pending or over, has had, and registers it |
| Nodes.Node.Cancel | node/node.go:635-649 | ends a request: acks still to come fit nothing and change nothing |
| Nodes.Node.WriteSlot | node/node.go:359-382 | replaces the own slot and no other; the document grows if the update is inflationary |
| Nodes.Node.SnapshotCollection | node/node.go:680-692 | answers the document, empty when there is none |
| Nodes.Node.CollectAcks | node/node.go:857-884 | the loop over queued acks is that gather, in a node that stays in order |
| FirstTouch.StepKeeps | node/node.go:359-382 | each lock region of an update or a merge on a missing document keeps the race's invariant and never replaces a published document |
| FirstTouch.NeverReplaced | node/node.go:473-495 | under every interleaving a published document stays the published object |
| FirstTouch.Serializable | node/node.go:366-381 | under every interleaving the document is what the completed operations, each once, leave one after another |
| FirstTouch.NothingLost | node/node.go:368-371 | the document is above every merged snapshot and above what each update left at its turn |
| FirstTouch.UpdatesCountTwice | node/node.go:368-371 | two racing runs of one update on a missing document count twice under every interleaving, where temporary documents merged afterwards would leave one |
| Decimals.CanonicalKeepsValue | node/node.go:321-344 | the canonical spelling is accepted, denotes the same rational and is its own canonical spelling |
| Decimals.CanonicalExactly | node/node.go:321-344 | two accepted spellings become the same string exactly when they denote the same rational |
| Decimals.KeysAgree | node/node.go:268-319 | a resolved key resolves to itself at every receiver, and two keys name one document exactly when they are the same text or number |
| TypeReg.Resolver.ResolveDef | builder/typereg.go:185-265 | a definition is resolved once, to its finite unfolding; recursion is blamed only on a cycle |
| TypeReg.Resolver.ResolveAll | builder/typereg.go:95-290 | resolution succeeds exactly when every definition unfolds finitely, and gives each name what it denotes |
| TypeReg.CyclicNotFinite | builder/typereg.go:87-94 | a definition on a reference cycle has no finite unfolding, so a cyclic list is never accepted |
| TypeReg.OrderIrrelevant | builder/typereg.go:265-290 | the table does not depend on the order of declaration |
| Parsing.RulesGuarded | parser/dsl.go:216-328 | no rule of the expression grammar reaches itself before consuming input, and none succeeds without consuming |
| Parsing.Run | parser/combinators.go:7-265 | a parser ends on every input, never moves backwards, and reports consumption exactly when it has moved |
| Parsing.RunMany | parser/combinators.go:176-197 | the repetition loop is the repetition combinator, and ends |
| Parsing.RulesConsume | parser/dsl.go:286-328 | an expression or an atom, once recognised, has consumed something |
| Parsing.TryBacktracks | parser/combinators.go:154-174 | a failed Try leaves the alternative to its right as if it had not been attempted |
| Parsing.OrCommits | parser/combinators.go:154-174 | a choice whose first branch consumed input and failed is committed to that failure |
| Parsing.RunWord | parser/combinators.go:250-265 | the string loop matches one rune after another |
| Parsing.LineDecides | parser/dsl.go:391-594 | every line is a statement or blank and then stops at the end of a line, or is a committed error: nothing is skipped |
| Parsing.AcceptedWhole | parser/dsl.go:584-600 | an accepted plan consumed the whole input and falls apart into statements and blanks, each ending where a line ends |

## Left out

- TypeSound.EvalSound: no guard unifies vectors of unrelated element types and, in the signed reading only, nothing multiplies two numbers of unknown sign; there the code's own rules are not sound. Both are asked only of the functions the table in use lists.
- Convergence.MergeIsJoin: acceptance asks the unsigned reading of what merge and the updates reach, and fewer than ten thousand functions in the plan: with more, a chain of calls alone can exceed the interpreter's depth limit. What rests on merged slots inhabiting a signed element type asks the signed reading too (Convergence.AcceptedTyped).
- Checker.CycleUnsound: for programs through which an unknown is handed out the checker's answer is modelled step by step, but which of them are nevertheless typed right is not characterised.
- Build.BuildPlan: declarations are maps by name, so that a plan declares nothing twice is taken as checked; unresolved names and arity errors are not modelled.
- ReplicationRuns.ReadSeesPush: orders a read after earlier pushes; it is not full linearizability, since querySync evaluates on a state that may be newer than the one it wrote back.
- Parsing.Run: positions and consumption only; the values parsers build and error messages are not modelled, and SepBy, which no rule uses, is left out.
- Nodes.Node.CollectAcks: acks that arrive while the loop runs are those already in the queue, and the timeout fires when none is left; later arrivals only extend the queue.
- Vectors.VectorCRDT.Apply: slots are values, so the copying that keeps rational objects from being shared is not modelled.
- Nodes.Node.MergeIntoCollection: a node's documents are values here; that concurrent first touches of one document behave as one step is what FirstTouch proves.
- The text of SMT scripts, running the solver, its time limits, and the internals of rationals and regular expressions.
- The exact text of rational numbers: encoding a number and reading it back is taken to be the identity.
- Plan fingerprints beyond equality, deployment races between different plans, and restarts.
- Name resolution itself: terms are modelled as already resolved.
- HTTP handlers, header parsing, API schemas, the sandbox and its web interface: plumbing without deep invariants.
- Goroutines and channels as such, and real time.
