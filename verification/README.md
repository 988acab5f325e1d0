# Deferred reference counting, its reclamation backends and three clients

The CDRC library gives C++ programs shared pointers that many threads may load, store and compare-and-swap at once.
A pointer that leaves a shared cell is not decremented at once: the decrement is deferred until nobody can still be
about to use the pointer. This project models the library as it is written and proves what it promises, over every
interleaving of any number of threads:

- `options.dfy`: optional values and critical sections, shared by the others.
- `sticky_counter.dfy`: the counter that cannot leave zero, down to its two stolen bits and 32-bit wrap-around;
  `sticky_runs.dfy` the account of the references, from the calls.
- `hp_*.dfy`: reference-counted cells over the hazard-pointer backend. `hp_model.dfy` is the machine, one step for every
  atomic access; `hp_invariant.dfy` what every step keeps; `hp_safety.dfy` and `hp_lifecycle.dfy` what follows for whole
  runs; `hp_runs.dfy`, `hp_answers.dfy` and `hp_holders.dfy` what the calls do and answer, and what their results are good
  for. `hp_pass.dfy` is one thread's deferred list and reclamation pass as an imperative class, with the bound on its
  length; `hp_drain.dfy` the destructor that drains all lists.
- `epoch_reclamation.dfy`, `interval_reclamation.dfy`, `hyaline.dfy`: the other three backends, each shown to run a
  deferred action only after the critical sections that mattered have ended; `epoch_runs.dfy`, `interval_runs.dfy` and
  `hyaline_runs.dfy` say so from the steps of the run. `hyaline_batches.dfy` is the layout of a Hyaline batch in memory,
  with its two shared words.
- `harris_list.dfy`, `double_link_queue.dfy` with `queue_runs.dfy`, and `tree_*.dfy`: three structures built on the cells, shown to behave as a set,
  a queue and a map whose operations each take effect at one instant of the call; the tree does so under guards, and
  without guards until a remove mixes two leaves up (see below).

Every machine has the same shape: a `State`, a `Label` for each kind of step, `Enabled`, `Apply`, and `Run` over a
sequence of labels. Fields that no branch of the program reads (which sections were open at a retire, when a reference
was created, the list of past trees) are book-keeping for the proofs; the comments name them. A theorem about
`Run(s0, ls)` for every runnable `ls` is a theorem about every reachable state. The theorems about answers and about
critical sections take the calls, their arguments and the sections from the labels `ls`, and the states from
`At(s0, ls, m)`, the state after m steps. `NoThreadIsStuck` in the larger machines
shows that the guards in `Enabled` never stop a call that the program would let go on.

How the pieces fit: the hazard-pointer machine changes a count in one step and lets any thread claim a zero that has
stuck, which is what `StickyCounter.RefinesSimpleCounter` and `StickyCounter.ExactlyOneDecrementClaimsZero` allow. The list and
the queue refer to nodes only through snapshots and owned pointers, and treat those nodes as never reused, which is what
`HpSafety.EveryRunIsSafe` provides. The tree's remove does not: between two seeks it remembers the leaf that it flagged
by its bare address (NatarajanTreeRCSS.hpp:528, 542, 572), which nothing protects but a guard. So the tree's nodes have
addresses, which come back once nobody holds the node, and the theorems say where that matters:

- Under guards (epochs, intervals, Hyaline) the leaf's memory stays until the call ends, as those backends' theorems say,
  and no remove ever takes another leaf for its own (`TreeGuards.GuardedNeverMixesUp`). All of `TreeSafety` and
  `TreeAnswers` holds.
- Over hazard pointers, which ask for no guard, it holds as long as no remove in clean-up mode reaches another leaf at
  the address of the one it flagged. When one does, and nobody disturbs it, it loses exactly what hangs beside that leaf
  (`TreeMixUps.CleanUpLosesIffMixUp`). `TreeLostKey.HazardPointersLoseAKey` is a run in which that happens: 20 is lost
  although only 10 is ever removed.

Two places where the code does something other than a comment in it says; the models follow the code:

- A reclamation pass keeps up to a + 1 deferred actions of an object with a >= 1 announcements
  (acquire_retire.h:297-304); the comment below it says that the number applied is the number deferred less the number
  announced (306-310). `HpPass.KeptPerKey` states the code's number, `HpPass.EjectedAsCommentedIff` exactly when the
  comment is right, and `HpPass.CommentIsWrong` an input on which it is not. The extra one is needed: it covers a copying
  CAS that has stored a pointer and not yet counted it.
- `StickyCounter::decrement` is documented to return true if the counter was decremented to zero (utils.h:139-144). A
  slower decrement may claim a zero that a later one produced; `StickyCounter.SlowerDecrementMayClaim` is such a run.
  The documented meaning holds exactly in the runs in which no increment succeeds while no reference is outstanding
  (`StickyCounter.ClaimantReachedZeroIff`); that exactly one decrement claims the zero holds in all.

## Model

| member | source | states |
|---|---|---|
| StickyCounter.ExactlyOneDecrementClaimsZero | include/cdrc/internal/utils.h:133-152 | in every run at most one decrement returns true, only with no reference outstanding; when all calls have returned and none is outstanding, exactly one has |
| StickyCounter.SlowerDecrementMayClaim | include/cdrc/internal/utils.h:145-152 | a run in which two decrements have both reached zero, an increment in between, and the earlier one then claims the zero that the later one produced, which returns false |
| StickyCounter.ClaimantReachedZeroIff | include/cdrc/internal/utils.h:139-152 | in every run that has come to rest, the decrements that returned true are exactly those whose subtraction reached zero, if and only if no increment of something succeeded while no reference was outstanding |
| StickyCounter.AnswersAreExact | include/cdrc/internal/utils.h:133-160 | a load returns exactly the outstanding count, an increment succeeds if and only if the counter is not stuck, and a claiming decrement leaves it stuck |
| StickyCounter.ZeroIsForever | include/cdrc/internal/utils.h:154-160 | once stuck at zero the word is stuck for the rest of any run, whatever failed increments add to its low bits |
| StickyCounter.StaysAtZero | include/cdrc/internal/utils.h:133-160 | over whole runs: after a load returned 0, an increment failed or a decrement returned true, every later load returns 0 and every later increment fails |
| StickyCounter.RefinesSimpleCounter | include/cdrc/internal/utils.h:133-160 | every access to the word is a step of a plain counter that sticks at zero and whose zero is claimed once |
| StickyRuns.CallIsInvoked | include/cdrc/internal/utils.h:133-160 | in every run a call stays what it was called as: an increment answers as one, a decrement takes the amount it was called with, a load reads |
| StickyRuns.OwnedIsAccountedFor | include/cdrc/internal/utils.h:133-152 | over every run the outstanding count of the other statements is the initial one, plus the amounts of the increments that answered true, less the amounts of the decrements that have subtracted |
| HpInvariant.Covered | include/cdrc/internal/smr/acquire_retire.h:293-304 | references never number fewer than the increments still owed, and more if the latest ejecting pass saw an announcement: what the first announcement counting twice is for |
| HpInvariant.StrongCount | include/cdrc/internal/memory_manager_base.h:114-123 | in an invariant state any strong reference, owned, in a cell, in hand or deferred, means a count of at least one and a live object; with none there is no debt |
| HpInvariant.WeakCount | include/cdrc/internal/memory_manager_base.h:125-131 | the same for weak references, and at least two while an expired object's shared reference is still held |
| HpInvariant.ProtectedTicket | include/cdrc/internal/smr/acquire_retire.h:154-173 | an announcement validated against a cell, or reserving an owned pointer, keeps some reference of that kind from being decremented |
| HpPasses.EjectCore | include/cdrc/internal/smr/acquire_retire.h:311-320 | a deferred decrement that the pass finds unannounced hits a positive count and leaves the invariant, whatever announcements, debts and other passes do meanwhile |
| HpPhases.EjectDisposeCore | include/cdrc/internal/memory_manager_base.h:71-75 | an ejected disposal finds a zero use count and no reader that was promised the object |
| HpPhases.JudgeCore | include/cdrc/internal/counted_object.h:80-98 | after the claim of a zero both ways keep the invariant: dispose and delete at once with no weak reference, else retire the disposal |
| HpTickets.RetireCore | include/cdrc/internal/memory_manager_base.h:133-141 | a reference taken out of a cell is retired while the count is at least one, as the code asserts |
| HpSafety.StepInv | include/cdrc/internal/smr/acquire_retire.h:154-327 | every step of every call, of every reclamation pass and of the release of an object keeps the whole invariant |
| HpSafety.EveryRunIsSafe | include/cdrc/atomic_rc_ptr.h:71-218 | in every run: no assertion of the library fails and no freed count is touched; every owner and every snapshot from a strong cell sees a live object with count at least one; a returned weak snapshot keeps its object undisposed; and references = count + increments owed, each debtor announcing the object in a slot of its own |
| HpSafety.InvConserved | include/cdrc/atomic_rc_ptr.h:89-156 | conservation with debt: each reference is in exactly one place (owner, cell, hand, deferred list) and together they number the count plus the increments in flight |
| HpRuns.CellsAreRegisters | include/cdrc/atomic_rc_ptr.h:71-218 | over every run each cell is an atomic register: a store makes it point to the object it was called with, a compare_and_swap does so if and only if the cell points to the expected object, a reserving one with the object it reserved, and nothing else changes what any cell points to |
| HpRuns.WritesAnswerTruly | include/cdrc/atomic_rc_ptr.h:137-172 | when a compare_and_swap returns, it answers true exactly if it found the expected object, that is, if it changed the cell; a store answers nothing |
| HpAnswers.EveryReadIsJustified | include/cdrc/atomic_weak_ptr.h:109-118 | whatever a load or get_snapshot returns is true of an instant of that very call, on the slot path and on the path without a free slot: a null snapshot means that the cell held null or an expired object, a null load that it was null, any other answer names the object that the cell held, and a load or a counted snapshot hands out a new reference to it |
| HpHolders.EverySnapshotIsSafe | include/cdrc/internal/smr/acquire_retire.h:182-206 | once get_snapshot has returned an object, the slot holds it until the thread clears it, and all that time the object is live with a positive count (strong cell) or not disposed (weak cell) |
| HpHolders.EveryReferenceIsSafe | include/cdrc/atomic_rc_ptr.h:112-116 | from the step that hands out a reference until it is dropped or moved into a cell it stays its owner's, and the object is live with a positive strong count, or for a weak reference has its control block |
| HpHolders.ClientsGetWhatTheyAsk | include/cdrc/weak_ptr.h:72-75 | creating, copying and locking hand out a new reference of the kind asked for, a lock if and only if the strong counter is not stuck; no other client step hands out any; a lock that fails finds no strong reference |
| HpHolders.PassEjectsUnannounced | include/cdrc/internal/smr/acquire_retire.h:311-320 | if no slot announces an object while a pass runs, the pass carries out every deferred decrement of it that it comes to, and its deferred disposal |
| HpSafety.NoThreadIsStuck | include/cdrc/internal/smr/acquire_retire.h:182-206 | in every run a call in progress can take its next step: the object, slot, cell or reference it needs is there |
| HpLifecycle.StepPhases | include/cdrc/internal/counted_object.h:74-108 | each step moves every object along live, expired, claimed, (delayed,) disposed, deleted, and never back |
| HpLifecycle.OncePerLife | include/cdrc/internal/counted_object.h:74-108 | over every run the creations, destructions and deletions at an address alternate in that order: each object is disposed at most once and deleted at most once, disposal first |
| HpLifecycle.NobodyWatchesTheDead | include/cdrc/internal/memory_manager_base.h:71-131 | a disposed object has no strong owner, no debt and no promised reader; a deleted one has no reference and no protected announcement at all |
| HpPass.KeptPerKey | include/cdrc/internal/smr/acquire_retire.h:293-320 | of d entries of a kind with a announcements of its object a pass keeps min(d, a + 1) if a >= 1 and none if a = 0 |
| HpPass.EjectedAsCommentedIff | include/cdrc/internal/smr/acquire_retire.h:306-320 | the number ejected of a kind is max(d - a, 0), as the comment has it, if and only if a = 0 or d <= a |
| HpPass.CommentIsWrong | include/cdrc/internal/smr/acquire_retire.h:306-310 | with one announcement and two entries none is ejected, where the comment has one |
| HpPass.KeptAndEjected | include/cdrc/internal/smr/acquire_retire.h:311-324 | what a pass keeps and what it ejects are together exactly what it took over, as multisets |
| HpPass.KeptBound | include/cdrc/internal/smr/acquire_retire.h:293-304 | a pass keeps at most six entries for each slot, whatever the slots announce |
| HpPass.ScanSlots | include/cdrc/internal/smr/acquire_retire.h:263-304 | the scan's table holds a + 1 for each kind of action of an object announced a >= 1 times, and nothing else |
| HpPass.Announce | include/cdrc/internal/smr/acquire_retire.h:297-304 | one announcement counts for all three kinds: two for a new key, one more for an old one |
| HpPass.Worker.Sweep | include/cdrc/internal/smr/acquire_retire.h:311-323 | the loop that spends the table keeps and ejects what the specification says, in order, with ejected actions retiring more meanwhile |
| HpPass.Worker.Pass | include/cdrc/internal/smr/acquire_retire.h:280-326 | after a pass the list is what was retired meanwhile followed by what was kept, and retired = ejected + deferred |
| HpPass.Worker.Retire | include/cdrc/internal/smr/acquire_retire.h:225-229 | nothing is lost, and on return the list has at most 48 P + max(30, 2 P) - 1 entries, whatever the passes read and the ejected actions retire; the loop of passes ends because those retire finitely often, as falling counts see to (HpDrain) |
| HpDrain.ExecKeeps | include/cdrc/internal/memory_manager_base.h:89-131 | running one deferred action keeps every count equal to the number of its owners, with the references its members release pending |
| HpDrain.ExecTotal | include/cdrc/internal/memory_manager_base.h:114-131 | every decrement brings the sum of all counts down, and a disposal does not raise it |
| HpDrain.Manager.Eject | include/cdrc/internal/memory_manager_base.h:89-104 | an eject with all it entails at once makes the sum of the counts strictly smaller |
| HpDrain.Manager.Drain | include/cdrc/internal/smr/acquire_retire.h:234-259 | the destructor ends with all lists empty, and each object still allocated is still owned by a pointer outside or a member of an undisposed object |
| EpochReclamation.ScanSees | include/cdrc/internal/epoch_tracker.h:56-63 | once the scan has passed a thread, a section of it that was open at an entry's retire is over or holds the minimum down |
| EpochRuns.EjectedAfterGrace | include/cdrc/internal/smr/acquire_retire_ebr.h:171-195 | in every run: once the action retired by step i has run, every critical section in which some thread was at step i has ended, a section lasting from its announcement until the last of its guards goes; although epochs are read and announced separately and the minimum is taken slot by slot |
| EpochRuns.PassEjectsExpired | include/cdrc/internal/smr/acquire_retire_ebr.h:179-195 | a whole pass of the retiring thread, during which every section that anybody was in had begun at a later epoch than the retire, runs the action |
| EpochRuns.PassIsOverAfter | include/cdrc/internal/smr/acquire_retire_ebr.h:171-195 | a pass is over after exactly one read of each announcement and one look at each entry |
| EpochRuns.GuardsAt | include/cdrc/internal/epoch_tracker.h:76-94 | with nested guards a thread's announcement stands exactly while the guards it has constructed outnumber those it has destroyed, counted from its steps |
| EpochRuns.NoneLostNoneTwice | include/cdrc/internal/smr/acquire_retire_ebr.h:122-126 | over every run each call of retire has its own action, with the object and the kind it was called with, and that action has run once or is held once; nothing else ever runs |
| IntervalReclamation.OpKeeps | include/cdrc/internal/smr/acquire_retire_ibr.h:142-158 | the protect loop ends only when the announced end equals the epoch, so what it returns was born by then; ends never shrink |
| IntervalReclamation.StartSees | include/cdrc/internal/epoch_tracker.h:67-74 | when a slot's start is read, an open section that had protected an entry's object will be met once its end is read |
| IntervalReclamation.EndSees | include/cdrc/internal/smr/acquire_retire_ibr.h:222-226 | when its end is read, however it grew, the entry is reserved or the section is over |
| IntervalRuns.EjectedAfterProtectors | include/cdrc/internal/smr/acquire_retire_ibr.h:142-158 | if protect_snapshot returns o, then o was in the cell at a step of that call, and no action on o retired after that step runs before the caller has left the critical section of the call |
| IntervalRuns.EjectedAfterReservers | include/cdrc/internal/smr/acquire_retire_ibr.h:122-134 | reserve returns what it was given, and no action on it retired from then on runs before the caller has left the section |
| IntervalRuns.NullIsTrue | include/cdrc/internal/smr/acquire_retire_ibr.h:142-158 | a null answer means that the cell was null at a step of the call, or that the count of what it held was found to be zero |
| IntervalRuns.NoneLostNoneTwice | include/cdrc/internal/smr/acquire_retire_ibr.h:162-166 | over every run each call of retire has its own action, which has run once or is held once; nothing else ever runs |
| IntervalRuns.PassEjectsUnmet | include/cdrc/internal/smr/acquire_retire_ibr.h:212-249 | a whole pass of the retiring thread, during which each thread's announced interval stayed before the object's birth or after its retirement, runs the action |
| IntervalRuns.PassIsOverWithin | include/cdrc/internal/smr/acquire_retire_ibr.h:212-249 | a pass over n entries is over after at most 2 P + n + 2 accesses |
| Hyaline.DecrementOk | include/cdrc/internal/smr/acquire_retire_hyaline.h:108-116 | a leaver's fetch_add(-1) sees 1 exactly when the adjustment is done and its node is the last one out; before that 2^62 keeps it away from 1 |
| Hyaline.FinishOk | include/cdrc/internal/smr/acquire_retire_hyaline.h:103-104 | the retirer's fetch_add sees the negated adjustment exactly when all its nodes have been taken already |
| Hyaline.FreedOnceAfterAllLeft | include/cdrc/internal/smr/acquire_retire_hyaline.h:62-116 | in every run a batch is freed at most once, exactly when its add_batch is done and no node of it is out, and by then every section open when add_batch began, or met at a slot visit, has ended; the count stays in range |
| HyalineRuns.FreedAfterAllLeft | include/cdrc/internal/smr/acquire_retire_hyaline.h:62-105 | in every run: when the batch that step i began to add is freed, every thread has left the critical section it was in at step i, and every section in which it held a node of the batch, a section lasting from the thread's entry to its next exit |
| HyalineRuns.AddBatchEnds | include/cdrc/internal/smr/acquire_retire_hyaline.h:87-105 | an add_batch left alone ends within 2 P + 2 accesses, and the batch is freed exactly when it has ended and no thread carries a node of it |
| Hyaline.NeverTouchedAfterFree | include/cdrc/internal/smr/acquire_retire_hyaline.h:108-116 | a thread that traverses its list never meets a batch that was freed |
| HyalineBatches.Batch.Add | include/cdrc/internal/smr/acquire_retire_hyaline.h:275-292 | retire builds the chain from the youngest node down to REFS, each SLOT node with its back link, the action in REFS |
| HyalineBatches.Batch.Retire | include/cdrc/internal/smr/acquire_retire_hyaline.h:275-304 | a batch is published as soon as it has more than 2 P nodes, so add_batch has a node for every thread and never writes to REFS; a batch that everybody has left already is freed, each object once |
| HyalineBatches.AddBatch | include/cdrc/internal/smr/acquire_retire_hyaline.h:87-105 | whatever the slots hold at the visits and however many threads leave meanwhile: each thread found inside gets a node of its own, never REFS, whose action word stays; the count becomes the number of nodes still out, and the batch is free at once if that is zero |
| HyalineBatches.FreeBatch | include/cdrc/internal/smr/acquire_retire_hyaline.h:118-130 | the walk runs the action once on each node's object and stops at REFS, the one place where a count is read as a link, because it is zero |
| HyalineBatches.EachOnce | include/cdrc/internal/smr/acquire_retire_hyaline.h:118-130 | the walk's order is the reverse of the order of retiring, every node in its place once |
| HarrisList.UnlinkKeepsList | examples/linked_list.h:79-89 | a CAS past marked nodes that are adjacent in memory takes exactly those out of the list and keeps order, reachability and the key set |
| HarrisList.InsertKeepsList | examples/linked_list.h:39-46 | the insert CAS adds exactly its key, which was absent, and keeps order and reachability |
| HarrisList.MarkKeepsList | examples/linked_list.h:52-58 | marking a node takes exactly its key out of the set |
| HarrisList.EveryRunIsSorted | examples/linked_list.h:33-90 | in every reachable state keys strictly increase along every next, marked nodes included, and every unmarked node is reachable from the head |
| HarrisList.SetChangesOnlyAtCas | examples/linked_list.h:39-59 | in every run the key set changes only at a successful insert CAS of an absent key or mark CAS of a present key, by that key |
| HarrisList.MarkedIsFrozen | examples/linked_list.h:49-59 | over the rest of any run a marked node's next never changes |
| HarrisList.HistoryIsTrue | examples/linked_list.h:33-61 | the recorded history is the key set after each step of the run |
| HarrisList.CallIsInvoked | examples/linked_list.h:33-61 | from the step that invokes it until its thread invokes another, a call has the kind and key it was invoked with, and that step as its beginning |
| HarrisList.EveryAnswerIsJustified | examples/linked_list.h:33-61 | every find, insert and remove answers, for the key it was invoked with, what was true of the set at an instant between its invocation and its return, and a successful insert or remove is the step of its own thread that changes the set there |
| HarrisList.EveryChangeIsACalls | examples/linked_list.h:39-59 | every change of the set is the step of an insert of an absent key or a remove of a present one, invoked before and not yet over, which answers true if it returns |
| HarrisList.NoThreadIsStuck | examples/linked_list.h:64-89 | no search ever follows a null next, and each call can go on |
| DoubleLinkQueue.OwnedUntilPassed | benchmarks/datastructures/queue.h:64-66 | a node not yet behind the head is strongly owned, so the weak snapshot of prev is null only behind it |
| DoubleLinkQueue.StoreKeeps | benchmarks/datastructures/queue.h:64-71 | the helping store and the enqueuer's own store write the successor in tail order: they link the next node or change nothing |
| DoubleLinkQueue.EveryRunKeepsOrder | benchmarks/datastructures/queue.h:58-75 | in every reachable state next is null or the successor in tail-CAS order, prev the predecessor, the linked nodes are a prefix, only the last two may be unlinked, and a finished enqueue is linked |
| QueueRuns.CallIsInvoked | benchmarks/datastructures/queue.h:58-92 | what a thread is at is what it was last called with: an enqueue with the node of that call, or a dequeue |
| QueueRuns.HoldsItsValue | benchmarks/datastructures/queue.h:58-59 | from its allocation on an enqueue's node holds the value that the enqueue was called with |
| QueueRuns.EveryStepIsAQueueStep | benchmarks/datastructures/queue.h:58-92 | every step of every run is a step of a first-in first-out queue: append the value that an enqueue under way was called with, take and answer the first value, answer empty on an empty queue, or nothing; and only a dequeue under way answers |
| QueueRuns.NoneLostNoneRepeated | benchmarks/datastructures/queue.h:58-92 | over every run the enqueue calls have an order with each call once and every returned call in it, in which a call that returned before another began comes first; the values answered are those of its first calls, in order, each called before it was taken, what is in the queue those of the next, and at most one more is still being linked; empty is answered only when every returned enqueue has been taken |
| DoubleLinkQueue.NoThreadIsStuck | benchmarks/datastructures/queue.h:58-92 | no thread touches a node that is not there, and each call can go on |
| TreeShapes.FoundAtWayEnd | benchmarks/memory_reclamation/src/rideables/NatarajanTreeRCSS.hpp:248-276 | in a tree in search order the way of a key ends at the one leaf that holds it, if any does |
| TreeUpdates.TagKeeps | benchmarks/memory_reclamation/src/rideables/NatarajanTreeRCSS.hpp:377-384 | tagging the edge beside a flagged one keeps the search tree and all that other threads know |
| TreeUpdates.FlagKeeps | benchmarks/memory_reclamation/src/rideables/NatarajanTreeRCSS.hpp:548-555 | a flag CAS that succeeds flags a leaf that is in the tree and was never flagged before; other edges to it are none |
| TreeSplices.InsertKeeps | benchmarks/memory_reclamation/src/rideables/NatarajanTreeRCSS.hpp:452-486 | an insert CAS that succeeds turns the tree into one with exactly the new leaf more, in order, its key absent before |
| TreeSplices.SpliceKeeps | benchmarks/memory_reclamation/src/rideables/NatarajanTreeRCSS.hpp:346-398 | a splice that succeeds keeps the search tree and takes out only flagged leaves, and inner nodes marked on both sides |
| TreeFrames.GoodLater | benchmarks/memory_reclamation/src/rideables/NatarajanTreeRCSS.hpp:280-344 | a node on a seek's path stays on the key's way until it leaves the tree, and then still leads to where the way went |
| TreeSteps.LeftInBetween | benchmarks/memory_reclamation/src/rideables/NatarajanTreeRCSS.hpp:570-580 | if a flagged leaf's key leads to another node at a later instant, the leaf and its key have left the tree in between: what a differing address proves |
| TreeSteps.StepInv | benchmarks/memory_reclamation/src/rideables/NatarajanTreeRCSS.hpp:248-584 | every step of get, insert, remove, seek and cleanup, but for a mix-up, keeps the tree's invariant and what each thread knows; the step out of a seek compares addresses |
| TreeSafety.EveryRunKeepsTheTree | benchmarks/memory_reclamation/src/rideables/NatarajanTreeRCSS.hpp:280-398 | under guards, and without them as long as no mix-up happens, in every reachable state the heap is one search tree in order without sharing; tagged edges stand beside flagged ones; nodes that left are marked on both sides |
| TreeSafety.NoUnflaggedKeyIsLost | benchmarks/memory_reclamation/src/rideables/NatarajanTreeRCSS.hpp:346-398 | under guards, and without them as long as no mix-up has happened: a leaf leaves only at a splice and only if it was flagged before; it enters only at an insert of an absent key; each leaf is flagged by one remove |
| TreeSafety.MarkedIsFrozen | benchmarks/memory_reclamation/src/rideables/NatarajanTreeRCSS.hpp:377-398 | over the rest of any run, mix-ups included, a flagged or tagged edge keeps its target and flag and never loses its tag |
| TreeAnswers.HistoryIsTrue | benchmarks/memory_reclamation/src/rideables/NatarajanTreeRCSS.hpp:418-584 | the recorded history is the tree after each step of the run |
| TreeAnswers.CallIsInvoked | benchmarks/memory_reclamation/src/rideables/NatarajanTreeRCSS.hpp:418-584 | from the step that invokes it until its thread invokes another, a call has the kind, value and key it was invoked with, and that step as its beginning |
| TreeAnswers.EveryAnswerIsJustified | benchmarks/memory_reclamation/src/rideables/NatarajanTreeRCSS.hpp:418-584 | under guards, and without them as long as no mix-up happens: every get, insert and remove answers, for what it was invoked with, what was true of the tree at an instant between its invocation and its return; a successful insert is the step of its own thread that adds its key and value; a successful remove has flagged a leaf by a step of its own, and that leaf, with its key and the answered value, leaves the tree |
| TreeAnswers.EveryTakenLeafIsARemoves | benchmarks/memory_reclamation/src/rideables/NatarajanTreeRCSS.hpp:516-584 | in the same runs every leaf is flagged once, by a step of a remove invoked for its key, and if that remove returns, it answers with that leaf |
| TreeAnswers.EveryChangeIsACalls | benchmarks/memory_reclamation/src/rideables/NatarajanTreeRCSS.hpp:418-486 | in the same runs a leaf enters only by the step of an insert invoked with its key and value, which finds the key absent and returns true with it, and a leaf leaves only if it was flagged |
| TreeSafety.NoThreadIsStuck | benchmarks/memory_reclamation/src/rideables/NatarajanTreeRCSS.hpp:248-584 | under guards, and without them as long as no mix-up happens: no thread follows a null or dangling edge, and each call can go on, an insert with any free addresses, of which there always are some |
| TreeGuards.GuardedNeverMixesUp | benchmarks/memory_reclamation/src/rideables/NatarajanTreeRCSS.hpp:516-584 | under guards no run has a remove in clean-up mode that reaches another leaf at the address of the one it flagged |
| TreeMixUps.CleanUpLosesIffMixUp | benchmarks/memory_reclamation/src/rideables/NatarajanTreeRCSS.hpp:346-398 | in every run without a mix-up so far: an undisturbed remove in clean-up mode, at a leaf of which nothing is being removed, takes leaves away if and only if that leaf lies at the address of the one it flagged; then it takes all on the parent's other side, and of the leaves that nobody flagged no others |
| TreeLostKey.HazardPointersLoseAKey | benchmarks/memory_reclamation/src/rideables/NatarajanTreeRCSS.hpp:570-580 | without guards there is a run, from the empty tree, in which a splice takes out an unflagged leaf after its neighbour got the address of a flagged leaf that is gone |

## Left out

- Weak memory orders, fences, padding and prefetching: every atomic access is one sequentially consistent step.
- `exchange` and `swap` of the atomic pointers: they hand the cell's reference to a pointer that decrements at once, so the deferral argument does not cover them beside concurrent readers.
- A compare_and_swap that copies a weak_snapshot_ptr into a strong cell: it ignores whether the increment succeeded, which only a caller who knows the object to be alive may do.
- The amortised triggers in the concurrent machines: a pass may start, and the epoch may advance, at any moment, which covers every policy; `HpPass.Worker` has the trigger.
- User destructors in the concurrent hazard-pointer machine: an object's members are dropped by later steps of any thread; `HpDrain` has them as part of the eject. Destructors that load or CAS atomic pointers are not modelled.
- HpPass.Worker.Sweep: what each ejected action retires in turn, and what the slots announce, come from an oracle; which decrements those are is the business of `hp_model.dfy`.
- HpDrain.ExecKeeps: an object destroyed at once is taken out before its members are released, where the code releases them first; nothing refers to it any more, so nobody can tell.
- IntervalReclamation and Hyaline leave nested guards to EpochReclamation, whose guards work the same way.
- Hyaline batches with more than one kind of action: the program takes the action from the first node, and so do the models.
- HyalineBatches.Batch.Retire: what the freed actions retire in turn; those nodes go to the next batch.
- TreeModel lets an address come back as soon as no node of the tree and no seek record is there, which is a little sooner than the library does; the theorems hold all the same, and the losing run does not use it.
- That a null weak snapshot is justified by the cell under the other three backends: their protect_snapshot answers null on a zero count without reading the cell again, so it is stated in full for hazard pointers only; IntervalRuns.NullIsTrue says what remains.
- `peek` of the queue, `rangeQuery`, `put` and `replace` of the tree, find with sentinel keys in the list.
- Integers wider than the counter: epochs, tickets and section numbers are unbounded.
- Progress of the clients' calls and of the hazard-pointer calls: that they end once others stop interfering.
- The other rideables, the stack, thread-id allocation, allocation statistics, benchmarks and third-party comparison code.
