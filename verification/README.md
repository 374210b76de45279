# PunkGo kernel: a verified model

PunkGo is a small kernel between agents and a shared log. Every action is
quoted, paid for with energy, checked against who may do what, appended to an
event log and covered by a Merkle tree. Humans keep control through envelopes
(a budget and a scope for an agent) and holds (an agent's action that waits for
a human's answer).

This project models that kernel and proves what it keeps. It has three layers.

**The Merkle log** (`Basics`, `Merkle`, `Acceptance`, `AuditStore`). The recursive definitions
of RFC 6962 (tree head, section 2.1; audit path, section 2.1.1) are the
specification. The incremental store of complete subtrees, its carry loop, the
roots folded from it, the paths read from it and the shifting verifier are
proved to refine them for every size.

**The kernel as a transition system** (`Consent`, `Database`, `Kernel`). Each SQL
transaction is a function from tables to tables that fails without effect. A
submission is a task whose steps are its reads and its transactions; the steps
of any number of tasks interleave with each other, with ticks, checkpoints,
crashes and the clock. `Run` is the state after any schedule of such steps.
Where the source reads first and writes in a later transaction (the budget
checkpoint, the hold before its answer, the holds to expire), the model has two
steps, so a schedule can come between. History variables record what the tables
do not: reservations left behind by failed tasks, energy minted, receipts, and
budget consumptions.

**The invariants and theorems** (`Sums`, `Stability`, `Tasks`, `Accounting`,
`Conservation`, `HoldLog`, `Provenance`, `Lineage`, `AuditTrail`, `Delegation`,
`Charges`, then `Theorems`, `Stranding`, `Effects`, `Freezing`, `Management`, `Answers`,
`Outcomes`, `Receipts`, `Payouts`, `Envelopes`, `Overlap`, `Calls`, `Paging`). `Reference`
says what each rule means apart from the function that decides it, and proves that the
function decides just that; the theorems are stated in its terms. Each invariant is kept by every effect of every step;
`Theorems.ReachableInv` gathers them, and the theorems are statements over every
reachable state and every later run. `Sql` models SQLite's LIKE, which decides whom
a freeze reaches. `Walks` has the steps of whole submissions, and `Scenarios` and
`AgentScenarios` have runs from the seeded state that show what does not hold.

**The kernel as an object** (`Tick`, `Stores`, `Expiry`, `Runtime`). The stores are
classes that update their rows in place, and `KernelRuntime` is the object over
them: `submit_action` with its early returns and rollbacks, the loop that times
holds out, the tick, the checkpoint. Its object invariant says that its tables are
those of `Run` on the history of steps it has recorded, so every theorem holds of
the object. `Runtime.KernelRuntime.SubmitAction` is an uninterrupted run of the
transition system by one task; its recursion through `execute_hold_response`
terminates because a task that answers a hold is never itself a re-submission.

Given, not modelled: glob matching is an arbitrary relation and the energy of a
tick an arbitrary integer (`Config`); hashing is a free constructor, hence
injective, with leaves apart from nodes; `stored_hash_index(level, n)` is the pair
`(level, n)`. Fresh ids and the clock are inputs of a step, and so are the order in
which a step of the transition system lists holds and, among envelopes of the same
age, which one it reads. The runs in `Scenarios` and `AgentScenarios` take it that
the glob `**` matches every target.

## Where the code differs from what is said about it

- The proof verifier of the benchmarks checks neither a proof's length nor that the
  index is in the tree, and needs to: `Merkle.ShortProofAccepted` and
  `Merkle.IndexBeyondAccepted` are leaves accepted at wrong indices.
  `Acceptance.WrongAcceptedExactly` says for which index, size and length something
  other than the indexed leaf is accepted, and `Merkle.CheckedLengthDecides` that with
  both compared it decides membership exactly.
- A submission that fails while it holds a reservation is not refunded. That is any
  failure after the reserve (`Scenarios.FailedSubmissionKeepsReserve`), and any
  failure of a re-submission, which carries its hold's reservation from its first
  step (`AgentScenarios.ApprovedThenFrozen`). `Stranding.FailsExactly` says for each
  step of each task when the tables refuse it, `Stranding.StrandsExactly` that these
  are the steps that strand, and `Stranding.StrandedForGood` that nothing is ever
  given back.
- An envelope's budget does not bound what is spent: a charge that overshoots is
  committed and only the budget update is rolled back. Under a budget of 20 an agent
  can spend 26 any number of times (`AgentScenarios.SpendingIsUnbounded`).
  `Envelopes.SpendingAgainstBudget` says that spending is what the budget took plus
  what was dropped, and within the budget exactly when nothing was dropped.
- Two overlapping submissions can both miss the halt, leaving a spent envelope
  active (`AgentScenarios.OverlapMissesHalt`, exactly when:
  `Envelopes.ActiveButFullExactly`).
- Overlapping submissions can skip a report that is due
  (`AgentScenarios.OverlapSkipsReport`); `Envelopes.EveryMultipleReported` says exactly
  when a crossing goes unreported. Neither this nor the missed halt happens on a
  schedule in which no charge comes between another's read and charge
  (`Overlap.SerialReports`, `Overlap.SerialHasRoom`), such as one call after the other.
- `has_more` is true on a last page that happens to be full
  (`Paging.NoMoreMeansNothingOlder`).
- A freeze is described as a cascade over what the target created. The query matches
  the target's id as a LIKE pattern, so `_`, `%` and letter case reach further: an
  agent named `r__t` freezes a human whom root created
  (`Scenarios.PatternFreezesSovereign`), and a frozen human stays frozen
  (`Freezing.FrozenHumansStayFrozen`). `Freezing.FrozenExactly` says whom a step
  freezes; with ids that do not select each other a freeze reaches only its target
  and the humans whom it created (`Freezing.FreezeReachesItsOwn`).

## Model

| member | source | states |
|---|---|---|
| Merkle.VerifyInclusion | benchmarks/src/bin/inv1_append_only.rs:158-186 | the loop over `current`, `idx` and `last` accepts exactly when the recursive climb from the leaf reaches the root |
| Merkle.VerifierDecidesPath | benchmarks/src/bin/inv1_append_only.rs:165-185 | for every size, index and proof of the audit path's length: accepted for the RFC 6962 tree head if and only if the leaf is the i-th leaf and the proof is its audit path |
| Merkle.PathLengthBound | README.md:50 | an audit path in a tree of n leaves has at most ceil(log2 n) hashes |
| Merkle.ShortProofAccepted | benchmarks/src/bin/inv1_append_only.rs:169-183 | without a length check the verifier accepts leaf 2 at index 1 of a tree of three leaves |
| Merkle.IndexBeyondAccepted | benchmarks/src/bin/inv1_append_only.rs:165-185 | without an index check the verifier accepts leaf 1 at index 3 of a tree of two leaves, with a proof of the right length |
| Acceptance.AcceptsExactly | benchmarks/src/bin/inv1_append_only.rs:165-185 | for every index, claimed size, hash and proof of m hashes: accepted for a tree head if and only if the m turns that the loop takes stay inside the tree, the hash is the head of the subtree they arrive at, and the proof is what they pass by |
| Acceptance.WrongAcceptedExactly | benchmarks/src/bin/inv1_append_only.rs:165-185 | some hash other than the indexed leaf is accepted with a proof of m hashes if and only if the m turns stay inside the tree and the index is outside it or m is not the length of its audit path |
| Acceptance.LongerProofFails | benchmarks/src/bin/inv1_append_only.rs:165-185 | a proof longer than the audit path of its index is never accepted, whatever the hash |
| Acceptance.RootPassesAsLeaf | benchmarks/src/bin/inv1_append_only.rs:165-185 | the root itself is accepted with the empty proof at every index of every tree |
| Merkle.CheckedLengthDecides | benchmarks/src/bin/inv1_append_only.rs:158-186 | with the index and the length compared first, acceptance is membership, for every index and every proof |
| AuditStore.AppendKeepsStore | crates/punkgo-kernel/src/audit.rs:97-131 | after an append, position (level, k) is stored exactly when its subtree is complete and holds its tree head; no left-sibling read fails |
| AuditStore.AppendReplacesNothing | crates/punkgo-kernel/src/audit.rs:121-127 | an append never replaces a stored row with another hash |
| AuditStore.RootCorrect | crates/punkgo-kernel/src/audit.rs:143-150 | the fold over the subtrees of the one-bits of n is the RFC 6962 tree head of the first n leaves, for every past n, and is available exactly up to the current size |
| AuditStore.ProofCorrect | crates/punkgo-kernel/src/audit.rs:211-219 | the proof read from the store for any index and any past size is the RFC 6962 audit path |
| AuditTrail.AppendEventOk | crates/punkgo-kernel/src/runtime/kernel.rs:756-767 | in a correct trail an event and its leaf can always be appended, and the store and every stored checkpoint stay right |
| AuditTrail.ApplyKeepsTrail | crates/punkgo-kernel/src/audit.rs:97-183 | every effect of every step keeps the store, the checkpoints and the receipts right |
| Theorems.ReceiptsStayProvable | crates/punkgo-kernel/src/runtime/kernel.rs:759-767 | every receipt ever returned verifies in every later state, against the root of every size that covers it, with the path read from the store |
| Theorems.OnlyTheReceiptVerifies | crates/punkgo-kernel/src/audit.rs:211-219 | against a stored checkpoint, at a receipt's index, nothing but the receipt's hash with its own audit path is accepted among proofs of the right length |
| Receipts.HashFixesRecord | crates/punkgo-kernel/src/state/event_log.rs:44-64 | two events have the same hash if and only if they have the same index, name, actor, reserved and settled energy and time |
| Receipts.AcceptedMeansRecorded | crates/punkgo-kernel/src/audit.rs:211-219 | whatever event the verifier accepts at a receipt's index, in any later state and against any stored checkpoint, agrees in index, name, actor, energies and time with the event that the receipt was given for |
| Receipts.ReceiptRecordsTheCall | crates/punkgo-kernel/src/runtime/kernel.rs:530-560 | a step that returns a receipt returns one, for the event that it adds, and that event has the call's own actor, action and target or rejected hold, energies and time |
| Theorems.CheckpointsArePermanent | crates/punkgo-kernel/src/audit.rs:143-183 | a stored checkpoint keeps its root in every later state, and it is the tree head of that prefix of the later log |
| Tick.Allocate | crates/punkgo-kernel/src/runtime/energy_producer.rs:103-136 | the floor loop and the remainder loop fill the array with credits that sum to exactly the energy of the tick |
| Tick.RemainderBounds | crates/punkgo-kernel/src/runtime/energy_producer.rs:130-136 | the remainder is at least 0 and less than the number of actors, so the round robin never wraps |
| Tick.TickIsNeutral | crates/punkgo-kernel/src/runtime/energy_producer.rs:118-136 | for any positive shares and any energy, the credits sum to exactly the energy |
| Tick.CreditNearDue | crates/punkgo-kernel/src/runtime/energy_producer.rs:123-136 | each credit is more than the exact share minus one and at most the exact share plus one |
| Tick.TickIsMonotone | crates/punkgo-kernel/src/runtime/energy_producer.rs:123-136 | a larger share never gets more than one unit less |
| Payouts.TickPays | crates/punkgo-kernel/src/runtime/energy_producer.rs:87-158 | after a tick of energy e every active agent with a positive share has its balance raised by e times its share over the total of all shares, rounded down or one more than that; no other row and no reservation changes, and a negative e changes nothing |
| Consent.CommitmentCost | crates/punkgo-kernel/src/runtime/kernel.rs:1623-1627 | the commitment is the least integer of at least a fifth of the reservation, and at most the reservation |
| Consent.HoldAnswerParses | crates/punkgo-kernel/src/runtime/kernel.rs:1273-1295 | an action is read as the answer to a hold if and only if it is a mutate of exactly that hold's target, with a non-empty id without a slash, and decides approve or reject |
| Consent.LifecycleParses | crates/punkgo-kernel/src/runtime/lifecycle.rs:21-52 | an action is read as a lifecycle operation if and only if it is a mutate of the actor's target, with a non-empty id, and names that operation, an energy share with its value |
| Reference.NamesDecide | crates/punkgo-core/src/action.rs:35-42 | each kind of action has its own name, and so has each kind of event that is no action |
| Reference.QuoteDecides | crates/punkgo-core/src/action.rs:77-103 | the quote is the price, for every action: 0, 10, 15 or 25 by kind, one per full 256 bytes that an execute put out, one, and one per full KiB of payload |
| Reference.BoundaryDecides | crates/punkgo-core/src/boundary.rs:21-76 | the boundary check passes exactly an observation, a `system/` or `ledger/` target for a holder of the wildcard, and otherwise a target that some writable pattern matches and grants the action for |
| Reference.ChildTargetsDecide | crates/punkgo-core/src/boundary.rs:82-155 | writable targets may be handed on exactly if each is covered by one of the giver's that has all its actions |
| Reference.ReductionDecides | crates/punkgo-core/src/consent.rs:272-309 | an envelope may be granted under another exactly if its budget is within what the other has left, its actions are among the other's and its targets are covered |
| Reference.HoldRulesDecide | crates/punkgo-core/src/consent.rs:90-95 | an action is held exactly if some rule of the list, whichever it is, names it and is about its target |
| Reference.TimeoutDecides | crates/punkgo-kernel/src/runtime/kernel.rs:1600-1608 | a hold has timed out exactly if more than a thousand times the seconds, in milliseconds, have passed since its trigger |
| Reference.ExpiryDecides | crates/punkgo-core/src/consent.rs:315-322 | an envelope has expired exactly if it has a deadline and the deadline has come |
| Effects.TriggerEffect | crates/punkgo-kernel/src/runtime/kernel.rs:399-446 | in every reachable state a hold request under a fresh id commits if the quote is available, and then the quote is reserved, the hold is pending with that quote and the event records it |
| Effects.AnswerEffect | crates/punkgo-kernel/src/runtime/kernel.rs:1427-1482 | answering an open hold always commits: the status and the event record the answer, a rejection releases the reserve and charges a fifth rounded up, an approval leaves the ledger as it is |
| Effects.TimeoutEffect | crates/punkgo-kernel/src/runtime/kernel.rs:1656-1679 | timing an open hold out always commits: the reserve is released, a fifth rounded up is charged to its agent, and status and event record it |
| Effects.CommitEffect | crates/punkgo-kernel/src/runtime/kernel.rs:713-775 | a commit without a clash settles its reservation, adds the actor with its grant or the envelope, and records the event with what it was checked against |
| Stability.StepGrows | crates/punkgo-kernel/src/runtime/kernel.rs:267-711 | no step rewrites the log, an actor's type, creator or lineage, an envelope's terms, or a resolved hold; consumption only grows and no envelope is reactivated |
| Stability.RunGrows | crates/punkgo-kernel/src/runtime/kernel.rs:267-711 | the same between any state and any later one |
| Stability.EffectFrame | crates/punkgo-kernel/src/runtime/kernel.rs:267-775 | which effects may touch which tables |
| Tasks.DecideOk | crates/punkgo-kernel/src/runtime/kernel.rs:267-560 | whatever a task has read, what it decides on is justified by the tables at that moment |
| Tasks.ApplyKeepsTasks | crates/punkgo-kernel/src/runtime/kernel.rs:267-711 | what a task knows from its earlier reads stays true whatever the other tasks do |
| Accounting.ReserveThenSettle | crates/punkgo-kernel/src/state/energy_ledger.rs:140-205 | settling a reservation for any part of it undoes the reservation and charges that part, and changes nothing else |
| Reference.ReserveDecides | crates/punkgo-kernel/src/state/energy_ledger.rs:75-124 | a reserve goes through exactly if it is positive and the balance covers it with what is reserved; it then raises what that actor has reserved and nothing else |
| Reference.SettleDecides | crates/punkgo-kernel/src/state/energy_ledger.rs:140-205 | on a row in order a settle goes through exactly if it releases at most what is reserved and the balance still covers the rest; it then moves only that row, by just that much |
| Reference.AccountDecides | crates/punkgo-kernel/src/state/energy_ledger.rs:261-301 | an account is opened exactly for a new actor with a name and a balance that is not negative, with nothing reserved |
| Accounting.HoldSettles | crates/punkgo-kernel/src/runtime/kernel.rs:1446-1454 | settling the commitment of a pending hold never meets a mismatch or a lack of energy |
| Accounting.TaskSettles | crates/punkgo-kernel/src/runtime/kernel.rs:725-729 | the settle of a commit never meets a mismatch or a lack of energy |
| Accounting.ApplyKeepsAccounts | crates/punkgo-kernel/src/state/energy_ledger.rs:42-191 | every effect of every step keeps reservations equal to what is owed and balances equal to the replayed log |
| Theorems.ReservationsAccounted | crates/punkgo-kernel/src/state/energy_ledger.rs:42-64 | under any interleaving an actor's reserved energy is the sum over its pending holds, its submissions in flight and its stranded reservations, between 0 and its balance |
| Theorems.PendingHoldsResolve | crates/punkgo-kernel/src/runtime/kernel.rs:1427-1482 | in every reachable state the answer and the timeout transactions succeed exactly on pending holds |
| Theorems.CommitFailsOnlyOnClash | crates/punkgo-kernel/src/runtime/kernel.rs:713-775 | a commit fails exactly when the row it creates is refused, never over energy or the audit trail |
| Stranding.FailsExactly | crates/punkgo-kernel/src/runtime/kernel.rs:267-560 | each step of each task fails if and only if the tables refuse it, stage by stage: authorization, expiry, trigger, answer, parsing, reserve, commit; a lifecycle operation is refused to all but the human who created the agent |
| Stranding.ClaimsExactly | crates/punkgo-kernel/src/runtime/kernel.rs:492-514 | a task holds a reservation exactly when it has reserved and not committed or re-executes an approved hold, and in the second case it is the hold's |
| Stranding.StrandsExactly | crates/punkgo-kernel/src/runtime/kernel.rs:498-559 | a step strands energy if and only if it ends a task that holds a reservation and the tables refuse the step; it strands the whole reservation and changes no table |
| Stranding.StrandedForGood | crates/punkgo-kernel/src/runtime/kernel.rs:498-559 | what is stranded never becomes less in any later state and stays part of what is reserved |
| Calls.CallEnds | crates/punkgo-kernel/src/runtime/kernel.rs:267-711 | a call that nothing interrupts ends in one of five ways: with a receipt and nothing stranded; refused with nothing of its own written; held back; refused at its commit, with its quote stranded; refused on the re-submission of a hold that it approved, with that hold's reservation stranded |
| Calls.EndedStrands | crates/punkgo-kernel/src/runtime/kernel.rs:498-559 | such a call strands energy if and only if it was refused at its commit or on a re-submission |
| Calls.EndedUntouched | crates/punkgo-kernel/src/runtime/kernel.rs:267-360 | a call without a receipt that neither strands nor holds back changes only what was due to expire, and nothing if nothing was |
| Scenarios.FailedSubmissionKeepsReserve | crates/punkgo-kernel/src/runtime/kernel.rs:516-532 | a concrete run after which no task and no hold is left and 26 units of root stay reserved |
| AgentScenarios.ApprovedThenFrozen | crates/punkgo-kernel/src/runtime/kernel.rs:1487-1569 | a run from the seeded state: an agent's action is held, the agent is frozen, a human approves, the re-submission fails; no task is left and the 16 units of the hold stay reserved |
| Theorems.LedgerRefinesReplay | crates/punkgo-kernel/src/state/energy_ledger.rs:183-191 | every balance is what was minted for the actor minus the settled energy of the events charged to it |
| Theorems.EnergyIsConserved | crates/punkgo-kernel/src/state/energy_ledger.rs:140-301 | all energy ever minted is in a balance or was settled by an event of the log |
| Theorems.MintingIsAnnounced | crates/punkgo-kernel/src/runtime/energy_producer.rs:138-165 | a step mints exactly a tick's production or a new actor's announced balance, and nothing otherwise |
| Conservation.TickHandsOut | crates/punkgo-kernel/src/runtime/energy_producer.rs:118-160 | the positive credits of a tick sum to its energy, and to 0 when the energy is not positive |
| HoldLog.ApplyKeepsLog | crates/punkgo-kernel/src/state/envelope_store.rs:306-379 | every effect of every step keeps the log lawful and the hold table equal to the view computed from the log |
| Theorems.HoldTableIsView | crates/punkgo-kernel/src/state/envelope_store.rs:338-379 | a hold is pending if and only if the log has its request and no resolution; a resolved hold has the status of its resolving event |
| Theorems.HoldsNeverChangeAgain | crates/punkgo-kernel/src/state/envelope_store.rs:338-379 | a hold keeps all but its status for ever, and once resolved keeps that too |
| Answers.NoLateAnswer | crates/punkgo-kernel/src/runtime/kernel.rs:1379-1407 | whatever else runs, a task goes on to answer a hold only if it was asked to by a human, the hold is open, and its envelope has no positive timeout of n seconds or at most 1000 n milliseconds have passed since the trigger |
| Answers.AnswerInTimeOrNever | crates/punkgo-kernel/src/runtime/kernel.rs:1379-1407 | a human's answer to an open hold goes on if it is in time, and otherwise to the expiry of its envelope's holds and then to an error |
| Outcomes.ApprovalResumes | crates/punkgo-kernel/src/runtime/kernel.rs:1491-1569 | on approve the call goes on as a submission of exactly the held action, with the reservation that was made for it, and only the hold's status has changed besides the log |
| Theorems.EachHoldOnce | crates/punkgo-kernel/src/runtime/kernel.rs:1432-1481 | a hold has at most one request, one resolution and one executed action in the log |
| Theorems.ResolutionFollowsRequest | crates/punkgo-kernel/src/runtime/kernel.rs:1446-1472 | a resolution comes after its request, repeats its quote and charges its agent nothing on approve and the commitment otherwise |
| Theorems.NoHeldActionWithoutHuman | crates/punkgo-kernel/src/runtime/kernel.rs:345-446 | an agent's event that any rule of the envelope it was checked against names, on a target that the rule matches, comes after its own request and a human's approval, for the same action and target, and settles exactly the quote made at trigger |
| Theorems.NoHoldWithoutRule | crates/punkgo-kernel/src/runtime/kernel.rs:345-446 | every hold request in the log is under an envelope of its agent, some rule of which names the action and matches its target |
| Theorems.ActionsStayInBounds | crates/punkgo-core/src/boundary.rs:21-48 | every committed action is within its actor's writable boundary, and an agent's state-changing action is in the scope of an envelope of its own |
| Theorems.AgentAuthorizedExactly | crates/punkgo-kernel/src/runtime/kernel.rs:279-353 | an agent's state-changing submission is authorized if and only if it names actor and target, the agent and its creator are active, a writable target allows it, and its latest active envelope is not past its deadline, has budget left and covers the action |
| Outcomes.AuthorizeExactly | crates/punkgo-kernel/src/runtime/kernel.rs:269-361 | every authorization that is not refused either marks the envelope that is past its deadline as expired, or leads an observer and a human on unchecked and an agent on under its envelope, through the expiry of its holds exactly if it has hold rules and a positive timeout |
| Theorems.BoundariesOnlyShrink | crates/punkgo-core/src/boundary.rs:82-115 | in every reachable state each writable target of a created actor is covered by one of its creator's, with at least its actions |
| Outcomes.ParsesExactly | crates/punkgo-kernel/src/runtime/kernel.rs:466-490 | a cleared action that is neither held, an answer nor refused goes on to do just what it spells: the lifecycle operation, the actor, the envelope under the grantor's own active one, or nothing besides its event |
| Outcomes.ReservedAtPrice | crates/punkgo-kernel/src/runtime/kernel.rs:493-525 | whatever is held or about to be committed was reserved at exactly the price of its action, on a re-submission the price at trigger time |
| Outcomes.CommitCreates | crates/punkgo-kernel/src/state/envelope_store.rs:41-116 | a commit creates the actor or envelope of the action's own payload, field by field as requested, with the one who asked as creator or grantor and the deadline so many seconds from now, and changes no other row |
| Provenance.ApplyKeepsEvents | crates/punkgo-kernel/src/runtime/kernel.rs:1321-1326 | every effect of every step keeps this for each event: its writer exists, an answer is a human's, an agent's action passed its envelope's hold rules or carries a hold |
| Theorems.RecursionIsBounded | crates/punkgo-kernel/src/runtime/kernel.rs:1566-1569 | a submission is nested at most once, and a re-submission never gets to answer a hold |
| Theorems.StartupChecksAlwaysPass | crates/punkgo-kernel/src/state/store.rs:300-360 | every reachable state passes the kernel's own startup integrity checks |
| Theorems.AgentsHaveOneHuman | crates/punkgo-kernel/src/runtime/kernel.rs:1107-1123 | every agent's lineage is exactly one existing human |
| Sql.PlainNames | crates/punkgo-kernel/src/state/actor_store.rs:240-259 | for ids without wildcards, quotes or escapes the lineage query compares ids without regard to letter case |
| Sql.NobodyNamesRoot | crates/punkgo-kernel/src/state/actor_store.rs:240-259 | no id, whatever its wildcards, selects the empty lineage of root |
| Freezing.RootStaysActive | crates/punkgo-kernel/src/runtime/lifecycle.rs:60-126 | root is active in every reachable state, whatever the ids |
| Freezing.SovereignsStayActive | crates/punkgo-kernel/src/runtime/lifecycle.rs:60-126 | while no agent's id selects another actor's id, every human created by a human is active in every reachable state |
| Freezing.PlainIdsAreDistinct | crates/punkgo-kernel/src/state/actor_store.rs:240-259 | ids without wildcards, quotes or escapes that differ in more than case do not select each other |
| Freezing.FreezeReaches | crates/punkgo-kernel/src/runtime/lifecycle.rs:101-126 | after a freeze an actor is frozen if and only if it is the target, was frozen before, or its creator's id is selected by the target's id as a pattern |
| Freezing.FreezeReachesItsOwn | crates/punkgo-kernel/src/runtime/lifecycle.rs:101-126 | while no agent's id selects another actor's id, a freeze changes only its target and humans whom the target created |
| Freezing.FrozenExactly | crates/punkgo-kernel/src/runtime/lifecycle.rs:101-126 | a step freezes an active actor if and only if it freezes or terminates that actor or an agent whose id selects the actor's lineage |
| Freezing.FrozenHumansStayFrozen | crates/punkgo-kernel/src/runtime/lifecycle.rs:60-94 | a human that is frozen once is frozen in every later state |
| Scenarios.PatternFreezesSovereign | crates/punkgo-kernel/src/state/actor_store.rs:240-259 | a run from the seeded state after which a human whom root created is frozen because root froze its agent `r__t` |
| Theorems.FrozenCannotAct | crates/punkgo-kernel/src/runtime/kernel.rs:276-303 | a state-changing submission of a frozen actor, or of an agent whose creator is frozen, fails at once |
| Management.OnlyItsCreatorManages | crates/punkgo-kernel/src/runtime/lifecycle.rs:62-94 | in every reachable state a task that is about to freeze, unfreeze, terminate or re-share an actor was asked for exactly that by the human who created the actor, an agent |
| Management.ItsCreatorMayManage | crates/punkgo-kernel/src/runtime/kernel.rs:470-486 | the converse: the parse step of a creator's well-formed request is not refused and goes on to do it |
| Management.ManagedExactly | crates/punkgo-kernel/src/runtime/lifecycle.rs:101-170 | what becomes of every actor's row in every step: only the lifecycle step of a task changes it, to frozen, active or the new share, for the subject and, on a freeze, for those whom the subject's id selects |
| Lineage.ApplyKeepsLineage | crates/punkgo-kernel/src/state/actor_store.rs:65-146 | every effect of every step keeps lineages and boundaries and, while no agent's id selects another actor's id, the sovereigns' status |
| Delegation.ApplyKeepsBudgets | crates/punkgo-core/src/consent.rs:244-293 | every effect of every step keeps budgets in bounds, the meter in order and delegated terms reduced |
| Charges.ApplyKeepsCharges | crates/punkgo-kernel/src/runtime/kernel.rs:571-629 | every effect of every step keeps each charge to one event of the envelope's actor that settled as much, and no event is charged twice |
| Envelopes.DelegationShrinks | crates/punkgo-core/src/consent.rs:272-293 | along any chain of parent links no envelope repeats, a descendant has at most the budget and only the actions of every ancestor, and each target is covered by a pattern of the direct parent |
| Envelopes.BudgetBounded | crates/punkgo-kernel/src/state/envelope_store.rs:383-428 | in every reachable state the consumed budget is between 0 and the budget and is the sum of the committed consumptions |
| Envelopes.ActiveButFullExactly | crates/punkgo-kernel/src/runtime/kernel.rs:571-619 | in every reachable state an active envelope has no budget left if and only if the charge that took the last of it had been overtaken since its read |
| Envelopes.SpendingAgainstBudget | crates/punkgo-kernel/src/runtime/kernel.rs:571-629 | what the log settled for the events charged to an envelope is what its budget took plus what was dropped, and is within the budget if and only if nothing was dropped |
| AgentScenarios.SpendingIsUnbounded | crates/punkgo-kernel/src/runtime/kernel.rs:621-627 | for every n a run from the seeded state after which an agent has spent 26 n under a budget of 20 that is active and untouched |
| AgentScenarios.OverlapMissesHalt | crates/punkgo-kernel/src/runtime/kernel.rs:581-619 | a run from the seeded state in which two overlapping submissions leave an envelope of 32 spent and active |
| Envelopes.ActiveHasRoom | crates/punkgo-kernel/src/runtime/kernel.rs:571-619 | an active envelope none of whose charges was overtaken since its read has budget left |
| Envelopes.FullButActive | crates/punkgo-core/src/consent.rs:244-250 | a charge leaves an active envelope without budget exactly when it meets the budget and its read is older than an earlier charge |
| Envelopes.OvershootStaysCommitted | crates/punkgo-kernel/src/runtime/kernel.rs:584-627 | a charge is dropped exactly when it does not fit the budget; then no table changes and its event stays |
| Envelopes.EveryMultipleReported | crates/punkgo-core/src/consent.rs:252-262 | every positive multiple of `report_every` up to the consumed budget was crossed by exactly one charge; it went unreported if and only if that charge, from what it had read, seemed to meet no budget and cross no multiple, which a charge that was not overtaken never does |
| AgentScenarios.OverlapSkipsReport | crates/punkgo-core/src/consent.rs:252-262 | a run from the seeded state in which two overlapping submissions cross 20 under an interval of 20 and neither is due a checkpoint |
| Overlap.NoOverlapNoStale | crates/punkgo-kernel/src/runtime/kernel.rs:571-629 | on a schedule in which no other task charges an envelope between a task's read of its budget and its charge, no charge to it is made on a stale read |
| Overlap.SerialHasRoom | crates/punkgo-kernel/src/runtime/kernel.rs:571-619 | on such a schedule an active envelope has budget left |
| Overlap.SerialReports | crates/punkgo-kernel/src/runtime/kernel.rs:571-619 | on such a schedule every positive multiple of the interval was crossed by exactly one charge, with a Report or a Halt |
| Overlap.OneByOneNoOverlap | crates/punkgo-kernel/src/runtime/kernel.rs:267-711 | submissions that run one after the other make such a schedule for every envelope |
| Envelopes.CheckpointMeansCrossing | crates/punkgo-core/src/consent.rs:244-264 | on an exact read a checkpoint is due if and only if the budget is met or a multiple of the interval is crossed |
| Paging.NewestSound | crates/punkgo-kernel/src/state/event_log.rs:241-280 | a query lists only selected events below the cursor, by strictly descending index |
| Paging.NewestComplete | crates/punkgo-kernel/src/state/event_log.rs:241-280 | a query without a limit lists every selected event below the cursor |
| Paging.PageThenRest | crates/punkgo-kernel/src/runtime/kernel.rs:840-860 | a page followed by what a query from its `next_cursor` sees is all that the page's own query selects |
| Paging.NoMoreMeansNothingOlder | crates/punkgo-kernel/src/runtime/kernel.rs:852-855 | `has_more` false means nothing older remains; true with nothing older happens exactly when the remaining events fill the page |
| Paging.PageIsNewest | crates/punkgo-kernel/src/runtime/kernel.rs:840-860 | a page is the newest of the events that the actor, `after` and cursor conditions select, newest first, up to a size of 20 or what was asked for within 1 and 500; it has more exactly if it is full, and its cursor is its oldest index |
| Paging.PagingIsComplete | crates/punkgo-kernel/src/runtime/kernel.rs:840-860 | following the cursor over a growing log with any page sizes yields the selected events of the log at the first page, newest first, each once, and ends |
| Paging.PagingARunningKernel | crates/punkgo-kernel/src/runtime/kernel.rs:840-860 | the same while any schedule runs between the pages |
| Expiry.ProgressEnds | crates/punkgo-kernel/src/runtime/kernel.rs:1589-1688 | after the loop no hold of the envelope is overdue, all other holds are untouched, and each agent has lost the sum of its commitments and been released the sum of its reservations |
| Expiry.TimeoutPays | crates/punkgo-kernel/src/runtime/kernel.rs:1656-1668 | timing one hold out moves its agent's row by exactly that hold's reservation and commitment, and nobody else's |
| Stores.EnergyLedger.ReserveInTx | crates/punkgo-kernel/src/state/energy_ledger.rs:75-124 | reserves as the ledger of the transition system does, or changes nothing and says why |
| Stores.EnergyLedger.SettleInTx | crates/punkgo-kernel/src/state/energy_ledger.rs:140-205 | settles as the ledger of the transition system does, or changes nothing and says why |
| Stores.EnergyLedger.CreditEnergyInTx | crates/punkgo-kernel/src/state/energy_ledger.rs:229-258 | credits as the ledger of the transition system does, or changes nothing and says why |
| Stores.EnergyLedger.CreateActorInTx | crates/punkgo-kernel/src/state/energy_ledger.rs:261-301 | opens an account as the ledger of the transition system does, or changes nothing and says why |
| Stores.EventLog.AppendInTx | crates/punkgo-kernel/src/state/event_log.rs:93-148 | appends the event under the next log index and returns that index with its hash, which `Receipts.HashFixesRecord` says fixes the event's record |
| Stores.AuditLog.AppendLeafInTx | crates/punkgo-kernel/src/audit.rs:97-131 | the carry loop and the insert loop leave exactly the rows of the recursive append, or none when a sibling is missing |
| Stores.AuditLog.MakeCheckpointInTx | crates/punkgo-kernel/src/audit.rs:143-183 | stores the root computed from the rows under its size and nothing else |
| Stores.AuditLog.TreeSize | crates/punkgo-kernel/src/audit.rs:236-247 | returns the size of the latest checkpoint |
| Stores.AuditLog.EnsureCheckpoint | crates/punkgo-kernel/src/audit.rs:252-262 | leaves the tree head of the whole log stored under the event count |
| Stores.EnvelopeStore.GetActiveForActor | crates/punkgo-kernel/src/state/envelope_store.rs:119-145 | returns a latest active envelope of the actor, and none only if there is none |
| Stores.EnvelopeStore.ListPendingHoldsForEnvelope | crates/punkgo-kernel/src/state/envelope_store.rs:265-303 | lists each pending hold of the envelope exactly once and no other, the earliest trigger first |
| Stores.EnvelopeStore.CreateInTx | crates/punkgo-kernel/src/state/envelope_store.rs:41-116 | inserts the row, or refuses a used id and changes nothing |
| Stores.EnvelopeStore.CreateHoldRequestInTx | crates/punkgo-kernel/src/state/envelope_store.rs:306-335 | inserts the row, or refuses a used id and changes nothing |
| Stores.EnvelopeStore.ResolveHoldRequestInTx | crates/punkgo-kernel/src/state/envelope_store.rs:338-379 | moves a pending hold to the status and nothing else; otherwise fails unchanged |
| Stores.EnvelopeStore.ConsumeBudgetInTx | crates/punkgo-kernel/src/state/envelope_store.rs:383-428 | consumes exactly when the budget allows it, and returns the new total |
| Stores.ActorStore.ListActiveWithShares | crates/punkgo-kernel/src/state/actor_store.rs:197-216 | lists each active agent with a positive share exactly once and no one else |
| Stores.ActorStore.ListDescendants | crates/punkgo-kernel/src/state/actor_store.rs:240-259 | lists exactly the active actors whose lineage column is LIKE the ancestor's pattern, each once |
| Stores.ActorStore.ExecuteFreeze | crates/punkgo-kernel/src/runtime/lifecycle.rs:101-126 | the loop freezes the target and the active actors that the lineage query selects, and changes nothing else |
| Runtime.KernelRuntime.FinalizeEnergyAndEvent | crates/punkgo-kernel/src/runtime/kernel.rs:713-775 | commits the settle, the new rows, the event and its leaf together and returns its receipt, or rolls everything back |
| Runtime.KernelRuntime.RequestHold | crates/punkgo-kernel/src/runtime/kernel.rs:399-438 | reserve, hold_request event and hold row in one transaction, or nothing |
| Runtime.KernelRuntime.AnswerRequest | crates/punkgo-kernel/src/runtime/kernel.rs:1427-1482 | resolution, commitment and hold_response event in one transaction, or nothing |
| Runtime.KernelRuntime.TimeOut | crates/punkgo-kernel/src/runtime/kernel.rs:1656-1679 | resolution, commitment and hold_timeout event in one transaction, or nothing |
| Runtime.KernelRuntime.ExpireTimedOutHolds | crates/punkgo-kernel/src/runtime/kernel.rs:1589-1688 | without an interleaved resolver the loop never fails, for any number of holds: afterwards nothing of the envelope is overdue, all other holds are untouched, each agent lost exactly its commitments and was released exactly its reservations |
| Runtime.KernelRuntime.Authorize | crates/punkgo-kernel/src/runtime/kernel.rs:269-361 | everything before the hold check takes the steps of one task and ends in an error or with the envelope it was checked against |
| Runtime.KernelRuntime.TriggerHoldRequest | crates/punkgo-kernel/src/runtime/kernel.rs:363-446 | ends the task with the hold on record, or with the tables unchanged |
| Runtime.KernelRuntime.MeterBudget | crates/punkgo-kernel/src/runtime/kernel.rs:571-629 | an agent's cost is charged to its latest active envelope on the row as read: dropped when it overshoots, halting the envelope when it fills it; any other action charges nothing |
| Runtime.KernelRuntime.ExecuteHoldResponse | crates/punkgo-kernel/src/runtime/kernel.rs:1307-1580 | takes the steps of one task through the answer and the re-submission, terminates, and returns a receipt exactly when one is recorded; only a human's answer in time to an open hold gets one, an answer in time resolves the hold as it says, and a late one returns an error and leaves the hold timed out |
| Runtime.KernelRuntime.CheckHold | crates/punkgo-kernel/src/runtime/kernel.rs:1307-1407 | lets an answer through, with no table changed, exactly if a human gives it in time to an open hold; a late one times the hold out and fails |
| Runtime.KernelRuntime.Pipeline | crates/punkgo-kernel/src/runtime/kernel.rs:267-711 | from a task's entry to its end, only steps of that task; terminates although it calls itself through the hold response |
| Runtime.KernelRuntime.SubmitAction | crates/punkgo-kernel/src/runtime/kernel.rs:267-711 | refines the transition system: one uninterrupted run of one task without a crash, which ends with one recorded receipt or an error; an error strands energy if and only if the commit or an approved re-submission was refused, and otherwise, unless the action was put on hold, changes only what was due to expire; an admitted human's answer to an open hold resolves it in time, and times it out with an error otherwise |
| Runtime.KernelRuntime.ProduceTick | crates/punkgo-kernel/src/runtime/energy_producer.rs:87-165 | never fails, pays each active agent with a positive share its part of the tick to within one unit, changes no other row, and mints exactly the tick's energy if someone produces and it is positive, else nothing |
| Runtime.KernelRuntime.EnsureCheckpoint | crates/punkgo-kernel/src/audit.rs:252-262 | in every state of the object it succeeds, and the latest checkpoint is then the tree head of the whole log |

## Left out

- The daemon, IPC, the command line, file locks, configuration files and schema creation: input and output around the kernel.
- SHA-256, Ed25519, JSON, the C2SP checkpoint text and hexadecimal: hashes are free constructors and signatures are absent; checkpoint rows hold the root only.
- The canonical event: its hash covers the name, actor, index, energies and time; the event id, payload hash and artifact hash that it also covers are not modelled, nor is any claim about the target, which it does not cover.
- Consistency proofs: the library that makes them is not part of this model; `Theorems.CheckpointsArePermanent` states the append-only content.
- Glob semantics: an arbitrary relation. The code matches a child pattern as literal text, so coverage is stated for each direct parent or creator as the code decides it, and no containment of what the patterns match is claimed.
- Payload fields that the kernel does not act on, instructions, purposes, reduction policies, actor ids derived from a purpose, policy versions, and the OID checks of execute payloads, which are one flag of the payload.
- `_hold_*` payload keys: only the kernel marks a re-submission, and a client's payload is taken not to carry them.
- The blob store, the timestamp table, the other read queries and the other benchmarks.
- Machine widths: energies and indices are unbounded integers, shares are exact reals, and a fifth rounded up is computed on integers, which agrees with the float expression below 2^53.
- A negative `duration_secs`; negative clocks. Timestamps are numbers where the source stores decimal strings, which order alike while they have the same length.
- `make_checkpoint` of an empty log, which no caller asks for.
- Reads that the source makes in one stretch before a transaction are one step, apart from those that a later transaction relies on; `list_active_with_shares` and the credits of a tick are one step.
- White space is space, tab, line feed and carriage return.
- Database errors and crashes inside a transaction: a crash ends a task between its steps.
- Stores.EventLog.AppendInTx: its hash leaves out the event id, payload hash and artifact hash, because the model has none of them.
- Stores.AuditLog.MakeCheckpointInTx: stores the root without the signed text and the time of the row, because both are derived outside the model.
- Runtime.KernelRuntime.SubmitAction: the clock stands still during one call; the transition system lets it advance between any two steps.
- Envelopes.ActiveHasRoom: assumes that no charge to the envelope was overtaken since its read, because without that it is false; `Envelopes.ActiveButFullExactly` has both directions and `Overlap.SerialHasRoom` the condition on schedules.
- Freezing.SovereignsStayActive: assumes that no agent's id selects another actor's id, because without that it is false.
- LIKE on text that holds a NUL character, and SQLite's limit on the length of a pattern.
- Merkle.VerifierDecidesPath: is about proofs of the audit path's length, because the verifier accepts others.
