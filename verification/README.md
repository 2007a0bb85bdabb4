# LeanAT runtime: a verified model

This project models the stores, protocols and the small execution engine of LeanAT's C++
runtime in Dafny and proves what they promise over all inputs, all runs or all reachable
states. It has four parts.

* **ExecIR.** The validator (type table, register definitions, reachability, dominance over
  segment roots, instruction typing), the interpreter with suspension and nested pure calls,
  and the binary descriptor. Results: type soundness of every accepted project, exactness of
  the dominance fixpoint, the meaning of fuel and of purity, and canonicity of the file format.
* **Events.** The slot-array event queue as a sorted queue of closed batches, and the
  transaction that commits cells, queue reservations, cancellations and participants at once
  or not at all.
* **Wire.** The base protocol of section 15.2 of IEEE Std 1666-2011 with its request and
  response lanes, finite rule tables, admission with request gates, and drain and reset.
* **Concurrency and results.** Cancellation scopes, the bounded task pool and its deadlock
  check, the reference-counted result registry with staged copies, managed access to shared
  buffers, and the timed reservation resource.

## How it is written

Each store is a value with one function per call, a history where the claim is about a whole
run, an invariant made of small named predicates, and lemmas that every call keeps it. Where
the runtime works by changing fields or by a loop, the model does too: `EventStore.EventStore`,
`DescriptorReader.Reader` and `Resource.Resource` are classes whose methods update their
fields, and the validator, the dominance loop, the interpreter loop, the commit passes, the
package validation, the knot check, the scope walks, the cancellation loops, the searches of
admission and the advance loop are methods proved against the functions they implement. A loop
over a map keyed by handles is a walk in the order of handles (`HandleOrder`). Answers of code
outside a store (result reservations, publication checks, the host's service callback and
external resource, the protocol engine's word that a hop is terminal) are parameters, so a
theorem holds whatever they are.

`dafny verify dfyconfig.toml` checks the whole project.

## Findings

* A scope store does not keep every handle in at most one scope. `attach` refuses a handle
  that is already listed but accepts the name of a scope that will be created next; creating
  it then lists the name twice (`ScopeOwners.OwnedTwice`). A call breaks the property exactly
  when it creates a scope while the name it is about to give out, which is the first free slot
  with the next generation, is listed already (`ScopeOwners.StepUnique`); so a run keeps it
  throughout exactly when no call does that (`ScopeOwners.OwnedExactly`), in particular when no
  caller attaches a name that has not been issued (`ScopeOwners.OwnedOnce`). The tree of scopes
  itself is never affected.
* At its last revision the admission store can leave a free lane with a waiting ticket and no
  holder, because the look at the lane inside a call fails after the call has taken effect. It
  happens in `request_request_gate` on a free lane that nobody holds, where the failure is not
  even reported, and in `cancel_request_gate` and `cancel_request_permit` by the holder of a
  free lane that someone else waits for. `try_request_permit` is a fourth caller: one revision
  before the last it counts a revision and then makes the stranding request.
  `AdmissionRuns.RequestServed`, `AdmissionRuns.CancelServed` and `AdmissionStrands.TryServed`
  say that these are exactly the failing inputs, and `AdmissionStrands` gives a run from a new
  store for each of the first three.
* Whether a finite protocol package is accepted depends on the order of its rules, because the
  disjointness test is not symmetric: it differs exactly when both guards are negations and one
  negates the other (`FiniteOrder.DisjointSymmetric`). `FiniteOrder.OrderDecides` is a package
  with two rules that is fine in one order and not in the other, the validator accepts the one
  and refuses the other (`FiniteOrder.ValidatedBothWays`), and
  `FiniteOrder.AcceptedReordered` says exactly which reorderings are refused. What an accepted
  package does never depends on the order (`FiniteRuns.TableOrderIrrelevant`).
* Withdrawing a reservation of a pipelined resource in the transaction that made it can lose
  the distance to another one of the same transaction: the counters are computed from the
  committed ones and the reservations in use, and one that was made and completed meanwhile is
  in neither (`ResourceTxn.SpacingLost`; exact condition in `ResourceTxn.WithdrawSpaced`).

## Model

| member | source | states |
|---|---|---|
| `ExecIR.DepthIrrelevant` | runtime/src/exec_ir.cpp:99-151 | on a well-founded type table, conformance does not depend on the exploration depth once it exceeds the type's height |
| `Validator.CheckTypes` | runtime/src/exec_ir.cpp:166-244 | an accepted type table has a height function that every mentioned type lies strictly below, so value checks never run out of depth |
| `Validator.CheckPureCalls` | runtime/src/exec_ir.cpp:276-307 | accepted pure programs call only pure programs of strictly smaller height |
| `Validator.CollectDefs` | runtime/src/exec_ir.cpp:365-379 | every register has one recorded definition, and every recorded definition is a real one |
| `Validator.CollectFlow` | runtime/src/exec_ir.cpp:395-468 | the edges and segment roots collected are exactly those of the program's terminators |
| `Dominance.Reach` | runtime/src/exec_ir.cpp:470-488 | the reached set is exactly the blocks on some path from the entry |
| `Dominance.LastRoot` | runtime/src/exec_ir.cpp:395-514 | every reachable block lies on a path from some segment root that meets no further root |
| `Dominance.FixpointExact` | runtime/src/exec_ir.cpp:489-514 | a settled approximation contains exactly the dominators: sound and complete |
| `Dominance.ComputeDominators` | runtime/src/exec_ir.cpp:489-514 | whenever the loop ends within its work limit, each block's set is exactly the blocks on every segment path to it |
| `Validator.CheckFlow` | runtime/src/exec_ir.cpp:395-514 | an accepted control flow is the program's graph, all of it reachable, with its exact dominators |
| `Validator.BestFacts` | runtime/src/exec_ir.cpp:360-743 | if any facts whatever make a program well formed, the computed definitions and exact dominators do |
| `Validator.CheckProgram` | runtime/src/exec_ir.cpp:308-743 | an accepted program satisfies the register discipline and the typing rules; once its blocks, definitions, edges and reachability have passed, a refusal means that no facts satisfy them |
| `Validator.Validate` | runtime/src/exec_ir.cpp:152-751 | acceptance comes with a certificate that the whole project is well formed |
| `Numeric.WrapIsModular` | runtime/src/interpreter.cpp:225-272 | 64-bit arithmetic followed by masking is arithmetic modulo the width |
| `Numeric.AddThenSub` | runtime/src/interpreter.cpp:225-272 | wrapping subtraction undoes wrapping addition |
| `Numeric.CheckedAddExact` | runtime/src/interpreter.cpp:225-272 | checked addition is exact and refuses exactly the sums that do not fit |
| `Numeric.UnaryMeaning` | runtime/src/numeric.cpp:18-28 | complement reflects and negation is the additive inverse on the width |
| `Numeric.UnaryInvolution` | runtime/src/numeric.cpp:18-28 | both undo themselves |
| `Numeric.ConvertRoundTrip` | runtime/src/numeric.cpp:49-60 | widening is undone by truncation and by checked narrowing |
| `InstructionLaws.VariantGivesBack` | runtime/src/interpreter.cpp:284-303 | a variant returns its tag, and its fields under that tag only |
| `InstructionLaws.BranchOnCompare` | runtime/src/interpreter.cpp:148-460 | a block that ends by comparing and branching continues where the relation between the two numbers says, two units of fuel later, with nothing but the condition register changed |
| `InstructionLaws.ConverseSame` | runtime/src/interpreter.cpp:148-460 | replacing the comparison by its converse with exchanged operands does not change what execution does |
| `InstructionLaws.SwitchFollows` | runtime/src/interpreter.cpp:451-460 | a switch takes the first matching case, the default otherwise |
| `Soundness.ValueFits` | runtime/src/interpreter.cpp:148-487 | on conforming operands every core opcode computes a value of its declared type or fails for a reason of the program |
| `Soundness.ExecSafe` | runtime/src/interpreter.cpp:148-487 | execution from any ready position never reads an unassigned register or the wrong alternative of a value |
| `Soundness.RunSafe` | runtime/src/interpreter.cpp:70-487 | any segment of an accepted project started at the entry or a resume point with conforming arguments and state is free of internal faults, and what it delivers conforms |
| `Segments.SegmentSound` | runtime/src/interpreter.cpp:21-27 | the same for segments started by the host, with no assumption on call depth |
| `Segments.ResumeAccepted` | runtime/src/interpreter.cpp:28-69 | what a suspension hands out is accepted by its resume point, whatever conforming value the wait delivers |
| `Segments.ProcessSound` | runtime/src/interpreter.cpp:6-69 | every chain of suspended and resumed segments stays sound |
| `Segments.RunFuel` | runtime/src/interpreter.cpp:70-487 | a run that does not exhaust its fuel ends the same way at the same cost with any larger amount |
| `Segments.BudgetTransparent` | runtime/src/interpreter.cpp:6-20 | a process budget changes only where fuel runs out, and charges what was used |
| `Segments.PureCall` | runtime/src/interpreter.cpp:202-215 | a pure call is a function of its arguments and changes neither state nor trace |
| `InterpreterLoop.ExecuteAt` | runtime/src/interpreter.cpp:70-487 | the dispatch loop computes exactly the recursive meaning |
| `InterpreterLoop.RunBlock` | runtime/src/interpreter.cpp:148-487 | the instruction loop of one block does |
| `Utf8Text.CheckUtf8` | runtime/src/descriptor.cpp:389-412 | the index loop decides the text predicate |
| `Utf8Text.Utf8Exact` | runtime/src/descriptor.cpp:389-412 | that predicate holds exactly of the encodings of sequences of Unicode scalar values in shortest form |
| `DescriptorReader.Reader.N` | runtime/src/descriptor.cpp:428-435 | a number read consumed exactly the bytes that writing it appends |
| `DescriptorReader.Reader.Str` | runtime/src/descriptor.cpp:446-456 | the same for text, which is well-formed UTF-8 |
| `DescriptorReader.Reader.ReadValue` | runtime/src/descriptor.cpp:479-571 | the same for nested typed values |
| `DescriptorReader.Reader.ReadTerminator` | runtime/src/descriptor.cpp:578-618 | the same for terminators |
| `DescriptorReader.Reader.ReadProgram` | runtime/src/descriptor.cpp:1019-1075 | the same for programs of every schema version |
| `DescriptorReader.Reader.ReadMetadata` | runtime/src/descriptor.cpp:741-873 | the same for components, instances, system, contracts and capabilities |
| `DescriptorReader.Reader.ReadPayload` | runtime/src/descriptor.cpp:997-1100 | the same for the whole payload |
| `DescriptorReader.LoadDescriptor` | runtime/src/descriptor.cpp:970-1108 | canonicity: an accepted file is byte for byte what serializing its project writes, so two different accepted files never denote the same project |
| `EventRuns.StepInv` | runtime/src/event_queue.cpp:31-305 | every queue call keeps the invariant relating slots, batch, history and tokens |
| `EventRuns.SortedQueue` | runtime/src/event_queue.cpp:31-214 | over every run batches strictly increase, deliveries follow the full key order whatever slots they used, no event is delivered twice, and an enqueued event waits, was delivered, or was cancelled and reclaimed |
| `EventRuns.TokenNamesOneEvent` | runtime/src/event_queue.cpp:31-75 | a token never validates against a later event in a reused slot |
| `EventStore.EventStore.ReserveEvent` | runtime/src/event_queue.cpp:50-75 | the slot scan does to the fields what the queue operation does to their value |
| `EventStore.EventStore.EnqueueEvent` | runtime/src/event_queue.cpp:76-91 | likewise for turning a reservation into a queued event |
| `EventStore.EventStore.AbandonEvent` | runtime/src/event_queue.cpp:43-49 | likewise for giving a reservation back |
| `EventStore.EventStore.RetargetEvent` | runtime/src/event_queue.cpp:259-271 | likewise for changing a reservation |
| `EventStore.EventStore.CancelEvent` | runtime/src/event_queue.cpp:98-109 | likewise for cancelling |
| `EventStore.EventStore.Pop` | runtime/src/event_queue.cpp:110-152 | likewise for the earliest-key search, the gathering and sorting of a batch and its slices |
| `EventStore.EventStore.Ack` | runtime/src/event_queue.cpp:153-167 | likewise for acknowledging the member at the cursor |
| `EventStore.EventStore.ResolveSome` | runtime/src/event_queue.cpp:168-178 | likewise for resolver progress |
| `EventStore.EventStore.Finish` | runtime/src/event_queue.cpp:179-188 | likewise for closing a batch |
| `EventStore.EventStore.Collect` | runtime/src/event_queue.cpp:203-214 | likewise for round-robin reclaiming |
| `EventTxn.ValidateAll` | runtime/src/event_txn.cpp:101-139 | the validation pass objects exactly when something staged has been overtaken |
| `EventTxn.ApplyEvents` | runtime/src/event_txn.cpp:149-153 | after validation every staged event enters its queue; the abort of the program is unreachable |
| `EventTxn.ApplyCancels` | runtime/src/event_txn.cpp:154-158 | likewise for cancellations, including those of events staged in the same transaction |
| `EventTxn.ApplyWrites` | runtime/src/event_txn.cpp:140-148 | each written cell takes its value and one more version; other cells are untouched |
| `EventTxn.Commit` | runtime/src/event_txn.cpp:101-164 | atomicity: an error leaves the world as it was, otherwise every staged effect is applied once; it commits exactly when admissible |
| `TxnRuns.StepOK` | runtime/src/event_txn.cpp:4-261 | whatever happens next to any transaction, savepoint, queue, cell or participant, every transaction stays fit for commit |
| `TxnRuns.Interleaved` | runtime/src/event_txn.cpp:4-261 | atomicity over every interleaving of transactions with each other and with queue and cell activity: a commit applies all of its transaction or nothing, and cells and participants are exactly what the commits so far, each at most once per transaction, made of them; no slot generation runs backwards |
| `TxnRuns.FirstCommitterWins` | runtime/src/event_txn.cpp:101-148 | of two transactions that could both commit and write a common cell, the first to commit bars the other |
| `TxnStaging.ReadYourWrites` | runtime/src/event_txn.cpp:12-51 | a buffered value is what the transaction reads from then on, and no other cell reads differently |
| `TxnStaging.RollbackUndoes` | runtime/src/event_txn.cpp:229-261 | rolling back to a savepoint undoes everything staged since: the transaction is what it was, every field of every queue too, except that free slots have aged and the sequence counter has moved on |
| `WireBase.StepInv` | runtime/src/protocol.cpp:89-508 | every ledger call, call, return and failure keeps the lane and milestone invariant |
| `WireBase.BaseProtocol` | runtime/src/protocol.cpp:213-508 | in every interleaving a lane is held exactly by the ledger in the matching state, and each ledger's milestones are a prefix of released, ready, terminal at non-decreasing times; reads that succeed carry all requested bytes |
| `WireBase.FaultedForEver` | runtime/src/protocol.cpp:324-355 | a refused return freezes its ledger and its lane for ever |
| `FiniteRules.GuardEqualExact` | runtime/src/protocol_finite.cpp:4-12 | the structural comparison is equality |
| `FiniteRules.DisjointSound` | runtime/src/protocol_finite.cpp:13-21 | guards called disjoint never hold of the same exchange |
| `FiniteOrder.OrderDecides` | runtime/src/protocol_finite.cpp:13-21 | a package of two rules that keeps its promises in one order and breaks one in the other |
| `FiniteOrder.ValidatedBothWays` | runtime/src/protocol_finite.cpp:64-162 | the validator accepts that package in one order and refuses it in the other, not for a limit |
| `FiniteOrder.DisjointSymmetric` | runtime/src/protocol_finite.cpp:13-21 | the test is symmetric on two guards if and only if they are not two negations of which one negates the other |
| `FiniteOrder.AcceptedReordered` | runtime/src/protocol_finite.cpp:64-162 | a reordering of an accepted package is acceptable if and only if it does not exchange two rules that answer the same call and reply, have no distinct priorities and have such guards |
| `FiniteOrder.AcceptedInEveryOrder` | runtime/src/protocol_finite.cpp:64-162 | a package is acceptable in every order if and only if it has no such two rules, if and only if it is acceptable backwards |
| `FiniteRules.ValidatePackage` | runtime/src/protocol_finite.cpp:64-162 | a package is accepted exactly when every promise of the table holds within the size, depth and work limits; a refusal for a limit means one is exceeded, any other that a promise is broken |
| `FiniteRules.AcceptedIsDeterministic` | runtime/src/protocol_finite.cpp:90-162 | rules answering one call and return have different ranks, and rules for one call carry the same call obligations |
| `FiniteRules.SelectAnswer` | runtime/src/protocol.cpp:379-392 | the selection loop finds the answering rule of least rank |
| `FiniteRules.AnswerOrderFree` | runtime/src/protocol.cpp:379-392 | the chosen rule does not depend on the order of the table |
| `FiniteRules.OfferOrderFree` | runtime/src/protocol.cpp:241-262 | neither do the obligations of a call |
| `FiniteEngine.FiniteActions` | runtime/src/protocol_finite.cpp:174-238 | the action loop computes the composition of its actions and refuses a close that leaks a lane |
| `FiniteRuns.FiniteProtocol` | runtime/src/protocol.cpp:213-419 | over every run of an accepted package no lane exceeds its capacity, lanes belong to open hops of their connection, a closed hop holds none, and milestones come at non-decreasing times |
| `FiniteRuns.OrderFree` | runtime/src/protocol.cpp:213-419 | two tables with the same rules in different orders drive the engine through the same states with the same reports |
| `FiniteRuns.TableOrderIrrelevant` | runtime/src/protocol.cpp:213-419 | in particular from a new engine with an accepted package |
| `AdmissionRuns.StepOK` | runtime/src/admission.cpp:109-606 | every call keeps the service and the gate invariants, and keeps free lanes served exactly when it is not one of the three failing calls |
| `Admission.LookAt` | runtime/src/admission.cpp:457-466 | the search over the tickets finds that the lane is held, or else the pending ticket that asked first |
| `Admission.SearchLane` | runtime/src/admission.cpp:450-472 | the search loop, with its early return, computes that |
| `Admission.SearchPending` | runtime/src/admission.cpp:226-239 | the loop finds a pending hop of the connection exactly when there is one |
| `Admission.ChoiceRight` | runtime/src/admission.cpp:311-345 | an in-order store selects the response of the earliest hop still on the wire and nothing else; otherwise no ready response is ahead of the selected one |
| `Admission.SearchResponse` | runtime/src/admission.cpp:322-337 | the two loops select that response |
| `AdmissionRuns.RequestServed` | runtime/src/admission.cpp:473-496 | asking for a gate keeps free lanes served if and only if it is not granted a ticket at the last revision on a free lane that nobody holds |
| `AdmissionRuns.CancelServed` | runtime/src/admission.cpp:556-581 | giving up a ticket or a permit keeps free lanes served if and only if it is not, at the last revision, the holder of a free lane giving it up while someone else waits |
| `AdmissionStrands.RequestStrands` | runtime/src/admission.cpp:473-496 | a run from a new store that ends with such a request |
| `AdmissionStrands.CancelGateStrands` | runtime/src/admission.cpp:556-567 | one that ends with such a cancelled ticket |
| `AdmissionStrands.CancelPermitStrands` | runtime/src/admission.cpp:568-581 | one that ends with such a cancelled permit |
| `AdmissionStrands.TryServed` | runtime/src/admission.cpp:497-518 | trying for a permit keeps free lanes served if and only if it is not, one revision before the last, the request of a free lane that nobody holds or waits for |
| `AdmissionStrands.TryIsRun` | runtime/src/admission.cpp:497-518 | trying for a permit is a run of the other calls, so what holds over all runs holds with it |
| `AdmissionRuns.AdmissionSafety` | runtime/src/admission.cpp:109-606 | over all runs: active services are the servicing hops, reserved responses are those plus the queued responses, both within limits, so neither counter underflows; at most one ticket of a connection is granted or consumed; grants follow request order; a free lane with a waiter has a holder unless one of the failing calls was made, which takes the last revision |
| `AdmissionOrder.StepRecords` | runtime/src/admission.cpp:450-581 | a call grants a ticket if and only if it records a turn, at most one, and the turn is that ticket's |
| `AdmissionOrder.RespondInOrder` | runtime/src/admission.cpp:311-345 | over all runs of an in-order store the responses of a connection are permitted in the order in which their hops arrived |
| `DrainRuns.StepInv` | runtime/src/drain.cpp:85-413 | every call keeps cohorts, receipts and epochs consistent |
| `DrainRuns.AppliedExactly` | runtime/src/drain.cpp:389-413 | a draining reset takes effect exactly when every responsibility of the old epoch that was not deferred is complete |
| `DrainRuns.DeferredEnter` | runtime/src/drain.cpp:360-413 | when a reset takes effect, by draining or by abort, every deferred root is in the new epoch and otherwise unchanged, unless it was already spent, in which case and only then it is reclaimed |
| `DrainRuns.NoEarlyReset` | runtime/src/drain.cpp:342-413 | whichever call makes a drain-then-reset take effect, the old epoch is complete at that moment |
| `DrainRuns.AbortCannotFail` | runtime/src/drain.cpp:295-386 | once the receipt count was checked, every cohort member is still present when cancelled, every receipt is allocated, and all of them end cancelled |
| `DrainRuns.RunInv` | runtime/src/drain.cpp:85-413 | epochs never decrease over any run |
| `DrainRuns.DrainSafety` | runtime/src/drain.cpp:95-413 | while a reset drains its cohort is exactly the old epoch, deferred roots exist only behind a barrier, and a receipt that says complete belongs to a complete responsibility |
| `TaskRuns.StepInv` | runtime/src/task_pool.cpp:49-527 | every call keeps frames, grants, queue and tickets consistent, whatever the other stores answer |
| `TaskRuns.SpawnReservedInv` | runtime/src/task_pool.cpp:262-316 | consuming a ticket succeeds if and only if it is granted to that waiter and scope, the owner is valid and the checks pass; no counter ever underflows |
| `TaskRuns.RetireExact` | runtime/src/task_pool.cpp:495-536 | retiring a task is refused only for a stale or released task, a queued one that is not cancelled, or a refused publication; the frame counter never underflows |
| `TaskRuns.WithdrawExact` | runtime/src/task_pool.cpp:440-472 | a ticket can be taken back exactly while it is pending or granted; the grant counter never underflows |
| `TaskRuns.Conservation` | runtime/src/task_pool.cpp:49-527 | frames and grants are the numbers they stand for and respect the pool's limits, and without tickets no later spawn overtakes a queued one |
| `TaskStarts.StartsExact` | runtime/src/task_pool.cpp:74-220 | in a pool without tickets a call logs exactly the tasks that newly hold a frame after it |
| `TaskKnot.HasEscape` | runtime/src/task_pool.cpp:418-430 | the task scan finds an escape exactly when some frame holder does not wait inside the blocked set |
| `TaskKnot.Check` | runtime/src/task_pool.cpp:379-439 | a deadlock is reported exactly when some closed knot of full, grant-free pools contains the target; the bounded passes always suffice |
| `CancelScope.WalkInside` | runtime/src/cancel_scope.cpp:55-65 | the loop decides the bounded ancestor walk |
| `CancelScope.WalkFrozen` | runtime/src/cancel_scope.cpp:66-76 | the loop decides the bounded freeze walk |
| `CancelScope.CancelLoops` | runtime/src/cancel_scope.cpp:200-240 | the two loops plan exactly the closure, or change nothing |
| `ScopeTree.InsideExact` | runtime/src/cancel_scope.cpp:55-65 | on a tree the bounded walk decides ancestry exactly |
| `ScopeTree.FrozenExact` | runtime/src/cancel_scope.cpp:66-76 | a scope is frozen exactly when it is gone or something above it is not open |
| `ScopeRuns.StepInv` | runtime/src/cancel_scope.cpp:77-294 | every call keeps the tree and the freeze order |
| `ScopeRuns.ScopesFormTree` | runtime/src/cancel_scope.cpp:55-294 | in every reachable state live scopes form a tree rooted at slot 0 and the walks are exact |
| `ScopeRuns.CancelFreezes` | runtime/src/cancel_scope.cpp:77-240 | after a cancellation no create, attach, transfer or replace in that subtree ever succeeds |
| `ScopeRuns.OneActionEach` | runtime/src/cancel_scope.cpp:226-239 | every entry present at cancellation has exactly one action, of the kind its owner needs |
| `ScopeRuns.IdentifiersDiffer` | runtime/src/cancel_scope.cpp:226-239 | no two actions share an identifier |
| `ScopeRuns.PlanKept` | runtime/src/cancel_scope.cpp:241-268 | a plan keeps its actions as long as its scope lives, and an applied action stays applied |
| `ScopeOwners.CreateUnique` | runtime/src/cancel_scope.cpp:77-101 | creating a scope keeps every handle in one place if and only if it is refused or the name made of the first free slot and the next generation is not listed yet |
| `ScopeOwners.StepUnique` | runtime/src/cancel_scope.cpp:77-294 | every other call keeps it |
| `ScopeOwners.OwnedExactly` | runtime/src/cancel_scope.cpp:77-294 | a run from a new store keeps every handle in one place throughout if and only if no call of it creates a scope under a listed name |
| `ScopeOwners.OwnedOnce` | runtime/src/cancel_scope.cpp:77-184 | every handle is owned once in every run in which no unissued scope name is attached |
| `ScopeOwners.OwnedTwice` | runtime/src/cancel_scope.cpp:102-120 | a two-call run after which a handle is listed twice |
| `ResultRuns.StepInv` | runtime/src/result_store.cpp:66-217 | every call keeps counts, links and pins consistent |
| `ResultRuns.ReferencesCounted` | runtime/src/result_store.cpp:66-217 | in every run a slot's consumer count is the number of its active consumers, its pin count the number of live views, and it is in use exactly as long as somebody needs it |
| `ResultRuns.WrittenOnce` | runtime/src/result_store.cpp:117-136 | as long as a result's name is valid its value never changes again |
| `ResultRuns.CommittedChain` | runtime/src/result_store.cpp:354-470 | a committed chain of staged calls, some of which may have been refused and rolled back, leaves the registry as the accepted calls made directly would, with the generations of refused ones skipped and the version counter aside |
| `ResultRuns.DiscardedChain` | runtime/src/result_store.cpp:390-392 | a discarded chain leaves the registry sound, and no name it reserved resolves in any later run, as a result or as a consumer |
| `Managed.FindNext` | runtime/src/managed.cpp:428-450 | the search loops find the least key |
| `ManagedRuns.ProcessShrinks` | runtime/src/managed.cpp:427-565 | every turn that succeeds brings an operation or change nearer to its end |
| `ManagedRuns.AdvanceLoop` | runtime/src/managed.cpp:416-568 | the loop terminates and computes the advance; a failing turn ends it and the turns before stay |
| `ManagedRuns.AdvanceComposes` | runtime/src/managed.cpp:406-568 | advancing to t1 and then to t2 gives exactly what advancing to t2 gives; if either part fails, so does the direct advance, at the same point |
| `ManagedSafety.EndsOnce` | runtime/src/managed.cpp:125-671 | over all runs of a new manager, failed advances included, every operation ends at most once and keeps the outcome that was published |
| `ManagedSafety.AdvanceSucceeds` | runtime/src/managed.cpp:416-568 | an advance fails only if the result store or the external resource makes it fail; the integrity check on a pinned buffer never does |
| `ManagedSafety.QuietCalls` | runtime/src/managed.cpp:569-671 | no call other than an advance touches an existing buffer |
| `ManagedSafety.FailedNeverWrites` | runtime/src/managed.cpp:125-247 | over all runs a buffer holds, byte for byte, what the outcomes of successful writes put there in their order; an operation that ends invalidated, cancelled (by the external resource at its finish too), reset or without service has no effect |
| `Resource.StartIsEarliest` | stdlib/src/resource.cpp:83-89 | the start computed from the counters is the least one the rules allow |
| `Resource.WithinCapacity` | stdlib/src/resource.cpp:56-115 | at any tick at most as many reservations are in service as there are channels |
| `Resource.ReservingSound` | stdlib/src/resource.cpp:56-115 | a grant extends the schedule by one reservation at its earliest start; channels never overlap, starts never decrease, pipeline starts keep their interval; a refusal changes nothing |
| `Resource.Resource.Reserve` | stdlib/src/resource.cpp:56-115 | the slot and channel loops compute exactly that reservation, with every refusal and its reason, and keep the schedule |
| `Resource.Resource.Complete` | stdlib/src/resource.cpp:171-202 | completion frees the slot exactly when the ticket is current and the finish is reached, reports whether the reservation was still wanted, and keeps the schedule |
| `Resource.Resource.CancelPending` | stdlib/src/resource.cpp:116-170 | cancelling a published reservation marks it and keeps its place in the schedule; one of the same transaction is withdrawn and the loop computes the counters anew |
| `ResourceTxn.TransactionSafe` | stdlib/src/resource.cpp:56-202 | after any reservations, completions and cancellations of a transaction, the next grant overlaps none of its reservations and starts before none of them, and keeps every rule towards all that was granted before the transaction |
| `ResourceRuns.ManyTransactions` | stdlib/src/resource.cpp:22-202 | over any number of transactions, committed or given up, with completions, cancellations and withdrawals: reservations on one channel never overlap, starts never decrease, and no tick sees more reservations in service than channels |
| `ResourceTxn.WithdrawSpaced` | stdlib/src/resource.cpp:141-163 | withdrawing keeps the pipeline distance of the transaction's other reservations if and only if none of them was completed at this moment that neither the committed counters nor a reservation in use remembers |
| `ResourceTxn.SpacingLost` | stdlib/src/resource.cpp:141-163 | four calls after which the next reservation starts together with an earlier one |

## Left out

- Validator.Validate: the work budgets other than the dominance budget, value and frame size limits, effect and context masks and profile strings only refuse more projects; the model accepts a superset and proves it sound.
- Validator.CheckProgram: the same limits and masks, program by program.
- Validator.Validate: acceptance of every well-formed project is not claimed.
- Interpreter service opcodes are one uninterpreted provider call; trace byte budgets, observations and exception paths are not modelled.
- Serialization is the family of functions that append to a buffer; the patching of the header in place is folded into building it first.
- The digest and the schema hash are uninterpreted functions of 32 bytes.
- DescriptorReader.LoadDescriptor: the validation that follows loading, and the in-memory row sizes, which are one constant, only refuse more files. That a file written for a valid project is accepted again is not stated.
- EventQueue: `next_wakeup`, `successor` and the inspection calls.
- EventTxn.Commit: the transaction is passed and returned as a value; aliasing between cells of one transaction is not modelled. Participants are known by whether they validate and what they reserve.
- Protocol: custom stateless rules (`install_rules`), prepared bindings and retirements through a transaction, acknowledgement cells and trace tags.
- Drain: staged updates through a shadow copy.
- Task pool: staged pools, argument bytes and the domain, store and owner fields of handles, which only refuse more calls.
- Cancellation scopes: observers appear only as the refusal they cause.
- Admission: staged updates.
- Result registry: payload shadows and milestones; the refusal to stage while a publication is announced.
- Managed access: single-step dispatch, staged calls, version cells of a backing, the capability, permission, connection and size limits of regions, leases and operations and the reservation of a result at `begin`, which only refuse more calls.
- Resource: the checks of caller domain and owner, which only refuse more calls; the resource's cell and the transaction around it are the two states passed to the operations.
- The stores of the wire, concurrency and result parts are values with one function per call, because their claims are about whole runs; sharing of one store object between several owners is not modelled.
- Byte-footprint estimates, SystemC adapters, native calls and the provider registration code.
