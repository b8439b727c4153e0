# Verified model of a sharded, deferred reference counter

The library counts references per shard: each thread changes the counter of its
own shard, so clones and drops do not contend. No thread ever sees the true count.
A single collector thread reads the counters one shard at a time, while they
change, and decides when an object may be freed. This project models that protocol
and the parts it rests on, and proves them for every run, every interleaving and
any number of shards, threads and objects.

## What is modelled

- **The two-stage collection protocol** (`Protocol*.dfy`, `ShardCounters.dfy`).
  A state machine whose steps are single accesses to shared memory. `load` and
  `upgrade` are four steps each (enter the critical section, read the pointer,
  increment, leave), `drop` and `compare_and_set` two each; the collector reads or
  clears one shard, or observes one critical-section counter, per step. The
  invariant is in `ProtocolInvariant.dfy`, the theorems in `ProtocolTheorems.dfy`;
  `ProtocolStageOne.dfy` adds what the source's stage-one sum guarantees, and
  `ProtocolLeakFree.dfy` that what nobody can reach is freed. `ProtocolOperations.dfy`
  says what the operations give their callers.
- **The collector's bookkeeping** (`CollectorBooks.dfy`, `Quiescence.dfy`): the
  collector thread's state as a class, with the loops of the source. What the
  shared counters show is an oracle, so every interleaving is covered.
- **The reader critical section's spin** (`ReaderCriticalSection.dfy`), its two loops.
- **The tagged counter word** (`TaggedCounter.dfy`): bits, 64-bit wrap-around, the
  compare-exchange loop under interference, and the three sums.
- **The sharded allocator** (`AllocLayout.dfy`, `AllocGroup.dfy`,
  `AllocMaintenance.dfy`, `AllocRounds.dfy`): address arithmetic, one group as a
  class with frees racing between any two accesses, and the whole allocator with the
  swap-based maintenance as a state machine that reads one flag per step.
- **The sharded read-write lock** (`ShardedRwLock.dfy`) and **waiting for a full
  collection** (`CollectorStatus.dfy`).

## Assumptions

- Steps interleave sequentially consistently.
- There is at least one shard (`requires n >= 1`); where the number matters, at most 256.
- A thread may use any shard index at any step, as the source lets it.
- The values of both stage-one sums are left open: `Skip` and `EndClear` take either
  outcome at any time. So every theorem about runs holds for whatever the relaxed
  reads return; only the tag clears and the re-check matter. Likewise a pass may
  update any subset of the tracked counters. Only `SumAssertionHolds` needs the clear's
  sum to be the one the source computes (`FollowsStageOne`), and the leak theorems also
  the pre-check's, over counts read at any moments of the pass (`FollowsPreCheck`).
- The memory allocator and the operating system hand out memory that nothing live uses.
- A weak part is not itself downgraded, nor put into a pointer cell: the source gives
  no way to do either.
- Dropping an object's content is a number of ordinary steps of the collector
  thread, interleaved like any others.

## Where the code and its promises part

- **`compare_and_set` counts late.** The pointer is exchanged first and the new
  pointer's count incremented afterwards, outside any critical section, although a
  comment says none is needed (src/sdarc.rs:365-397). Between the two another thread
  can swap the pointer out and drop it, and the sum reaches 0 while the borrowed
  handle lives. `ProtocolHazards.FreedWhileOwned` is such a run, with both stage-one
  sums zero as the source demands: an object freed while owned. The exact condition
  is `ProtocolTheorems.FreedExactly`: every freed object was condemned by one
  re-check, and that one found it owned if and only if such a debt was outstanding
  at its first read. The safety theorems ask for no more than that this re-check, and
  for a weak part also its object's, began without debt (`DebtFree`, `Clean`);
  `CutOffExactly` is the same for clearing a back-reference. A caller can rely on less:
  an object no compare-and-set has put into a cell is never freed early
  (`NoEarlyFreeForCallers`), and a weak part has no condition of its own
  (`WeakPartDebtFree`). Conservation carries the debt as a term. The collector's assertion on the sum is not affected: it holds in
  every run, debts or not (`ProtocolStageOne.SumAssertionHolds`).
- **`drop` reads after it lets go.** It decrements first and then reads the counters'
  address through the object (src/sdarc.rs:151-175). `ProtocolHazards.TrailingReadAfterFree`
  is a run in which that read finds the object freed. `NoUseAfterFree` is about every
  other access. The trailing read has its own condition, `TrailingReadExactly`: it
  finds the object freed if and only if the collector freed it since the drop, and
  that takes a whole spin, begun after the drop and ended before the read. A read made
  before such a spin has ended is safe. (`GracePeriod` shows what a repair would rest
  on: no spin that begins while a thread is inside a reader critical section ends
  before the thread has left it.)
- **Whether the inner loop can run for ever** is left open by a comment that ends in
  TODO (src/collector.rs:392-407). It cannot: `CollectorBooks.PassProgress` gives the measure.

## Model

| member | source | states |
|---|---|---|
| ProtocolTheorems.NoEarlyFree | src/collector.rs:219-289 | In every state of every run a freed object has no handle, no pointer cell and no in-flight reader, and no weak reference leads to it, if the re-check that condemned it began without debt |
| ProtocolTheorems.FreedExactly | src/collector.rs:251-271 | A freed object was condemned by exactly one re-check, all of whose shards were untagged with sum zero; that one found it owned if and only if a compare-and-set owed it a count at its first read |
| ProtocolTheorems.NoEarlyFreeForCallers | src/sdarc.rs:354-397 | An object that no compare-and-set has put into a cell (for a weak part: its object) is never freed while anybody can reach it |
| ProtocolTheorems.NotInstalledDebtFree | src/sdarc.rs:365-397 | Such an object meets the condition of the safety theorems |
| ProtocolTheorems.WeakPartDebtFree | src/sdarc.rs:541-553 | A weak part is never owed a count, so only its object's condition matters |
| ProtocolOperations.DecisionOutcome | src/collector.rs:251-281 | A decision sends an object back exactly if its sum was not zero, watches on exactly if it nulled the back-reference now, and else makes it ready to free |
| ProtocolTheorems.CondemnedOnce | src/collector.rs:285-287 | No object becomes ready to free twice: the decision and its re-check are unique |
| ProtocolTheorems.NoneAppearsLater | src/collector.rs:493-513 | After a free no holder of the object appears for the rest of the run |
| ProtocolTheorems.FreedAtMostOnce | src/collector.rs:493-513 | No object is freed twice in any run |
| ProtocolTheorems.NoUseAfterFree | src/sdarc.rs:294-335 | No mutator step touches the memory of a freed object, a drop's trailing read aside |
| ProtocolTheorems.CollectorTouchesUnfreed | src/collector.rs:219-289 | No collector step touches a freed object, be it the counter it updates or the weak part whose back-reference it clears |
| ProtocolTheorems.TrailingReadExactly | src/sdarc.rs:167-173 | A drop's trailing read finds its object freed if and only if the collector freed it since the drop, and only if a whole spin began after the drop and ended before the read |
| ProtocolTheorems.FreedOnlyAfterSpin | src/sdarc.rs:151-175 | Between a drop and the free of its object lie, in this order, a tag clear, a whole spin and the re-check that condemns it |
| ProtocolTheorems.FoundIsUnfreed | src/sdarc.rs:86-100 | An object that is owned, held by a reader or reachable from its weak part is not freed |
| ProtocolTheorems.NoAba | src/sdarc.rs:345-363 | Two objects somebody can still find never share an address, so comparing pointers compares objects |
| ProtocolOperations.CompareAndSetExchanges | src/sdarc.rs:365-397 | A compare-and-set that takes effect found the very object it expected, returns it as a handle and leaves the new one in the cell; no other owner changes |
| ProtocolOperations.CompareAndSetExactly | src/sdarc.rs:354-363 | It takes effect if and only if the cell holds the expected object, or is empty where null is expected |
| ProtocolOperations.StepEffect | src/sdarc.rs:114-175 | Which handle, cell or weak field each step of new, clone, drop, swap, compare-and-set and downgrade changes, to what, and that no other changes |
| ProtocolOperations.FreeEffect | src/sdarc.rs:223-227 | Freeing an object lets go of its weak part and changes no other owner |
| ProtocolOperations.LoadFinds | src/sdarc.rs:294-320 | A load finds what its cell holds at the read, nothing if it is empty |
| ProtocolOperations.LoadReturns | src/sdarc.rs:294-320 | A whole load returns a handle on what the cell held at its read |
| ProtocolOperations.FoundNothingLeaves | src/sdarc.rs:294-320 | A reader that found nothing leaves without a handle |
| ProtocolOperations.UpgradeFinds | src/sdarc.rs:563-594 | An upgrade finds exactly what the weak part's back-reference is at its read; its handle is not taken away meanwhile |
| ProtocolOperations.UpgradeReturns | src/sdarc.rs:555-594 | A whole upgrade of an object owned throughout (debt-free) ends with a new handle on it |
| ProtocolOperations.UpgradeGoesOn | src/sdarc.rs:574-592 | An upgrade that finds its object can only go on to count itself in |
| ProtocolOperations.ThreadsNeverWait | src/reader_critical_section.rs:7-9 | No thread inside a load, upgrade, drop or compare-and-set waits for any other, on whatever shard |
| ProtocolOperations.HandlesAlwaysUsable | src/sdarc.rs:133-175 | Clone, drop, swap, downgrade and upgrade are possible with any handle at any moment |
| ProtocolOperations.CollectorWaitsOnlyForReaders | src/reader_critical_section.rs:112-152 | The collector can always go on, save where it spins on shards that all have a reader inside |
| ProtocolTheorems.RecheckBegan | src/collector.rs:339-356 | Every re-check that read all shards began with a first read earlier in the run |
| ProtocolTheorems.RecheckIsSnapshot | src/collector.rs:339-356 | The shard-by-shard sum is at least the true total at its first read; at zero the object was owned exactly if a debt was outstanding |
| ProtocolTheorems.ZeroSinceTagClear | src/collector.rs:243-261 | A debt-free re-check of sum zero proves the true total was zero, and the object unowned, at every moment since its tags were last cleared |
| ProtocolTheorems.OwnershipTraced | src/tagged_counter.rs:94-131 | Between two tag clears an owned object stays owned or leaves a tag set |
| ProtocolStageOne.SumAssertionHolds | src/collector.rs:272-281 | In every run that watches an object only after a tag clear of sum zero, the assertion on the re-checked sum never fails, whatever threads do and whatever is owed |
| ProtocolStageOne.StepFloors | src/collector.rs:310-323 | Every step keeps the counts a tag clear found as floors: an untagged shard of a watched object holds no less, and a re-check's partial sum is no less than theirs |
| ProtocolLeakFree.FreedBySecondPass | src/collector.rs:219-289 | An unreachable tracked object in the default state is freed by the end of the second pass over it, in every run that computes its sums, whatever threads do meanwhile |
| ProtocolLeakFree.FreedByThirdPass | src/collector.rs:243-271 | So is, by the end of the third pass, one that nobody owns or is about to own though its weak part still points to it, unless an upgrade revives it |
| ProtocolLeakFree.FreedFromAnyPhase | src/collector.rs:245-250 | An unreachable tracked object, be it dropped while under watch with its tag set, is freed by the end of the third pass over it |
| ProtocolLeakFree.NoSkip | src/collector.rs:223-225 | The pre-check cannot miss such an object, though it reads the shards at different moments |
| ProtocolLeakFree.PlaceCollect | src/collector.rs:419-491 | How each collector step moves an object through queue, clear, re-check, ready and freed |
| ProtocolLeakFree.StepForsaken | src/sdarc.rs:114-175 | No step of any thread changes a count of an object nobody owns or is about to own, nor revives its back-reference |
| ProtocolLeakFree.UnreachableStays | src/collector.rs:253-256 | An unreachable object stays unreachable for the rest of the run |
| ProtocolTheorems.CountConservation | src/sdarc.rs:114-175 | In every state of every run the shard counts sum to handles plus pointer cells plus weak fields, less outstanding compare-and-set debts |
| ProtocolLedger.MutateBalance | src/sdarc.rs:294-397 | Each of clone, drop, load, upgrade, swap, compare-and-set and downgrade leaves every object's balance of counts, references and debts unchanged |
| ProtocolLedger.InitWeakBalanced | src/sdarc.rs:541-561 | Making the weak part keeps every object balanced, the new one included |
| ProtocolTheorems.BooksPartition | src/collector.rs:517-532 | Pending, tracked and freed objects partition all allocations; pending and tracked ones have distinct counter slots even when slots are reused; no counter ready to free awaits an update |
| ProtocolTheorems.ClearedForGood | src/sdarc.rs:515-538 | A null back-reference stays null for the rest of the run |
| ProtocolTheorems.UpgradeSucceedsWhileOwned | src/sdarc.rs:562-594 | If an object was owned at every moment so far, its weak part still points to it, unless a re-check cut it off under a debt |
| ProtocolTheorems.CutOffExactly | src/collector.rs:257-270 | A back-reference is null only because a re-check cut it off, and that re-check found the object owned if and only if a count was owed |
| ProtocolTheorems.WeakPartFreedCleared | src/sdarc.rs:463-471 | When a weak part is freed its back-reference is null, so its destructor's assertion holds |
| ProtocolTheorems.FreedAfterCutOff | src/collector.rs:257-270 | An object with a weak part is freed in this order only: a re-check nulls the back-reference, a whole spin passes, and then comes the re-check that condemns it |
| ProtocolTheorems.ResurrectionSafe | src/sdarc.rs:563-594 | A reader or upgrader that read a non-null pointer finds its object unfreed until it has counted itself in |
| ProtocolTheorems.GracePeriod | src/reader_critical_section.rs:112-152 | Every reader inside its section when a spin begins leaves it before the spin ends |
| ProtocolTheorems.SpinBetweenUpdates | src/collector.rs:419-491 | No counter is updated twice without a complete spin, begun and ended, in between |
| ProtocolCollector.QuietAtFirstRead | src/collector.rs:243-261 | After a full spin an untagged object without owners has no in-flight reader, unless its weak part still points to it |
| ProtocolCollector.SnapshotAtDecision | src/collector.rs:339-356 | Once all shards were read untagged the sum bounds references less debts at the first read, and sum zero makes owners and debts appear together or not at all |
| ProtocolCollector.NextInv | src/collector.rs:219-289 | Every step of every thread and of the collector keeps the protocol's invariant |
| ProtocolCollector.RunInv | src/collector.rs:359-448 | The invariant holds in every state of every run |
| ProtocolHazards.FreedWhileOwned | src/sdarc.rs:365-397 | A run through zero stage-one sums that frees an object while a handle on it lives, with a step about to touch it |
| ProtocolHazards.TrailingReadAfterFree | src/sdarc.rs:151-175 | A run through zero stage-one sums in which a drop's last read finds its object freed |
| CollectorBooks.PassConsistent | src/collector.rs:428-447 | Between passes every counter under watch is to be re-checked and none is ready to free |
| CollectorBooks.PassOutcome | src/collector.rs:219-289 | A pass frees a counter if and only if it was watched, its re-check summed to zero and its back-reference, if any, had been nulled before; nulls and watches likewise, each under its exact condition |
| CollectorBooks.FreedAfterNulled | src/collector.rs:257-270 | Within an iteration a downgraded object is freed in a later pass than the one that nulled its back-reference |
| CollectorBooks.QuietPass | src/collector.rs:450-491 | A pass that frees and clears nothing leaves under watch only counters it found in the default state |
| CollectorBooks.PassProgress | src/collector.rs:371-417 | Every pass over a non-empty set lowers the measure, whatever the counters showed and whatever destructors dropped |
| CollectorBooks.MeasureBound | src/collector.rs:371-417 | The measure is at most 4 T + 2 for T tracked objects |
| CollectorBooks.CollectorThreadState.DoCollectionInnerIterations | src/collector.rs:371-417 | The loop ends under every oracle after at most 4 T + 2 re-check passes, each over a non-empty set, computes the iterated pass function, frees exactly the objects it stops tracking, each once and each in a pass that may free it, and unless it is cut off at 100000 leaves nothing to re-check |
| CollectorBooks.CollectorThreadState.UpdatePass | src/collector.rs:419-491 | One pass computes the pass function and frees exactly what it may; it stops exactly if an assertion fails |
| CollectorBooks.CollectorThreadState.UpdateCounters | src/collector.rs:457-482 | Updates every counter to re-check and sorts them by outcome |
| CollectorBooks.CollectorThreadState.UpdateState | src/collector.rs:219-289 | One update's phase, cleared back-reference and failed assertion, and nothing else changed; ready to free only out of a zero re-check with the back-reference nulled before, watched only out of two zero sums or the nulling itself |
| CollectorBooks.CollectorThreadState.ClearWeakBackRef | src/sdarc.rs:515-538 | Tells the three outcomes apart and nulls the back-reference |
| CollectorBooks.CollectorThreadState.FreePointers | src/collector.rs:493-513 | Frees exactly the objects ready to free, each once; remove and assertion cannot fail; drops on this thread are recorded |
| CollectorBooks.CollectorThreadState.TakeNewCountersToTrack | src/collector.rs:517-532 | Every pending counter becomes tracked in the default state, no insertion replaces an entry, the lists are left empty |
| Quiescence.PassComplete | src/collector.rs:450-491 | With no user thread at work, whatever has no reference stays in the set to re-check, whatever is watched has none and no tag, and no assertion fails |
| Quiescence.WorldAgrees | src/collector.rs:371-417 | Over any number of quiet passes the bookkeeping loop sees just what the heap shows |
| Quiescence.CollectQuietly | src/collector.rs:592-640 | One quiet outer iteration, unless cut off, leaves no tracked object without a reference and every counter in the default state; for garbage of depth d it takes at most 3 d + 3 re-check passes, however many objects there are and whatever cycles live among them |
| Quiescence.WorkEnds | src/collector.rs:592-606 | Garbage of depth d is gone, with nothing left to re-check, after 3 d + 4 passes |
| Quiescence.LayerInThree | src/collector.rs:592-606 | Three passes free one more layer of garbage, for good |
| Quiescence.NoAcyclicGarbage | src/tests/stress_tests.rs:568-585 | Then, if fields form no cycle, every object left is reachable from outside: garbage of any depth is gone |
| ReaderCriticalSection.SpinUntilObservingNonCriticalSectionOnceInEachShard | src/reader_critical_section.rs:112-152 | When the two loops end they read every shard's counter as zero at some moment, so every visit under way at the start is over; only a shard found visited by any given number of loads in a row keeps them from ending |
| ReaderCriticalSection.SpinOn | src/reader_critical_section.rs:130-150 | Loads one counter up to its first zero and no further |
| TaggedCounter.BitLayout | src/tagged_counter.rs:66-76 | Shift, mask and or on the bits are the signed count and the tag of the word |
| TaggedCounter.SignExtend | src/tagged_counter.rs:66-70 | The arithmetic shift keeps negative counts |
| TaggedCounter.OpRefines | src/tagged_counter.rs:88-131 | Each operation on the wrapped 64-bit word is the operation on the pair |
| TaggedCounter.WordRefinesPair | src/tagged_counter.rs:88-131 | Over every in-range sequence of operations of any threads the word encodes the pair |
| TaggedCounter.NewCounterStaysInRange | src/tagged_counter.rs:82-92 | A new counter cannot leave the range in fewer than 2^62 operations |
| TaggedCounter.AtomicTaggedCounter.DecrementRefCountAndSetTag | src/tagged_counter.rs:94-122 | Takes effect as exactly one decrement, whatever other threads do and however often the exchange fails |
| TaggedCounter.AtomicTaggedCounter.FetchAndClearTag | src/tagged_counter.rs:125-131 | Clears the tag and returns the word before |
| TaggedCounter.AtomicTaggedCounter.IncrementRefCount | src/tagged_counter.rs:88-92 | Takes effect as one increment |
| TaggedCounter.SumFits | src/collector.rs:296-308 | With at most 256 shards and counts below 2^55 the sum fits in 64 bits |
| TaggedCounter.ReadRefCountSum | src/collector.rs:296-308 | The loop's sum is the true sum of the counts read, up to wrap-around, which small counts rule out |
| TaggedCounter.ClearTagsAndReadRefCountSum | src/collector.rs:310-323 | Whatever other threads do between the shards, each shard is cleared once, at its own moment, and the sum is that of the counts found at these moments |
| TaggedCounter.ReadRefCountSumIfAllTagsUnset | src/collector.rs:339-356 | None exactly if some word read carries a tag, else the same sum |
| AllocLayout.CellInUnit | src/sharded_alloc.rs:65-68 | Every cell lies inside its unit, past the row of usage flags |
| AllocLayout.CellsApart | src/sharded_alloc.rs:449-457 | Cells overlap exactly if unit, slot and shard agree, and never overlap a flag |
| AllocGroup.AllocUnitGroup.AllocateInUnit | src/sharded_alloc.rs:112-130 | Hands out a slot nobody held when its flag was set; fails only if every slot was in use when it began, though frees race |
| AllocGroup.AllocUnitGroup.Allocate | src/sharded_alloc.rs:197-223 | Ends; the index list stays in bounds and free of repetition; a unit leaves the list only if it was full when the call began, a new one is made only if all listed were, and the unit that served stays listed |
| AllocGroup.SwapRemoveFirstOk | src/sharded_alloc.rs:216-221 | swap_remove(0) removes just the first index and keeps the list sound |
| AllocGroup.AllocUnitGroup.DropUnit | src/sharded_alloc.rs:170-178 | The drop's assertion holds although frees race with its reads |
| AllocGroup.AllocUnitGroup.RetainUsed | src/sharded_alloc.rs:225-226 | No unit with a slot in use is lost, and none that had no slot in use at the start is kept |
| AllocGroup.AllocUnitGroup.DoMaintenance | src/sharded_alloc.rs:225-235 | As above; a listed unit has a free slot at the end, an unlisted one had none at the start |
| AllocMaintenance.StepInv | src/sharded_alloc.rs:282-310 | Every step of allocation, free and maintenance keeps the allocator's invariant |
| AllocMaintenance.OneGroupEach | src/sharded_alloc.rs:282-310 | At every moment of every run a unit is live if and only if it is in some group, and then in exactly one place |
| AllocMaintenance.LostOnlyUnused | src/sharded_alloc.rs:225-235 | A unit disappears only by a collector step and only with all sixteen flags unused |
| AllocMaintenance.NoAssertionFails | src/sharded_alloc.rs:170-178 | No assertion or bounds check of allocator, drop or free ever fails |
| AllocMaintenance.NotUnderMaintenance | src/sharded_alloc.rs:112-130 | A flag is set only in a shard's own group, so what the collector read of the group it holds stays true |
| AllocMaintenance.OutstandingUntilFreed | src/sharded_alloc.rs:469-482 | An allocation lasts, with live unit and flag set, until its owner frees it |
| AllocMaintenance.HandedOutOnce | src/sharded_alloc.rs:197-223 | A slot handed out was nobody's at that moment, and only its owner's free takes it back |
| AllocMaintenance.AllocationsApart | src/sharded_alloc.rs:449-457 | Allocations outstanding together share no cell in any shard and no flag, and lie in live units |
| AllocMaintenance.RoundReturnsGroup | src/sharded_alloc.rs:285-307 | After swap, maintenance and swap back a shard has its own group again: nothing joined it, and nothing with an allocation outstanding left it |
| AllocRounds.RoundRelists | src/sharded_alloc.rs:225-235 | A finished round kept only units with a slot in use when it began, listed every unit with a slot free then, and lists only units with a slot free now, whatever threads do meanwhile |
| AllocRounds.EveryRoundHappens | src/sharded_alloc.rs:282-310 | Finished maintenance went through every shard's round and the filling group's own, each from its first flag to its last |
| AllocRounds.NewUnitOnlyIfFull | src/sharded_alloc.rs:201-213 | An allocation makes a new unit only if all units listed when it took the lock were full then, though it reads one flag at a time; the new unit is listed |
| AllocRounds.ServedFromList | src/sharded_alloc.rs:215-221 | Otherwise it gets an unheld slot of a listed unit, which stays listed, and unlists only units that were full |
| AllocRounds.OnlyOwnGroup | src/sharded_alloc.rs:267-276 | Slots of a group's units are taken into use by allocations in that group only |
| AllocRounds.WaitsOnlyForLocks | src/sharded_alloc.rs:267-310 | A thread with its shard's lock can go on, a free never waits, and the collector waits only for a lock it needs to swap |
| ShardedRwLock.StepInv | src/sharded_rwlock.rs:32-70 | Every step keeps each shard's lock consistent with where the threads are |
| ShardedRwLock.MutualExclusion | src/sharded_rwlock.rs:54-70 | A writer in its data phase excludes all readers and writers, also ones part-way through acquiring or releasing |
| ShardedRwLock.FarthestFree | src/sharded_rwlock.rs:54-70 | With nobody inside, the lock the farthest writer waits for is free |
| ShardedRwLock.NoDeadlock | src/sharded_rwlock.rs:93-103 | While any thread is inside an operation some such thread can step, for fair and unfair locks |
| ShardedRwLock.OneStepCloser | src/sharded_rwlock.rs:32-70 | Every step brings its thread one step closer to the end of its operation and moves no other; try_read grants exactly what is free |
| CollectorStatus.CollectorThreadMain | src/collector.rs:551-589 | The published statuses alternate as a history should |
| CollectorStatus.ConsecutiveSerialNumbers | src/collector.rs:41-82 | The status passes through consecutive serial numbers |
| CollectorStatus.WaitsForFullIteration | src/collector.rs:62-75 | The target is reached if and only if an outer iteration both began and ended since the call |
| CollectorStatus.UpdateNowAndWait | src/collector.rs:174-188 | The waiter returns at its first look that has such an iteration behind it, and waits on at every look before |

## Left out

- Weak memory: the effects of Relaxed, Acquire and Release orderings; steps interleave sequentially consistently.
- Operations of src/sdarc.rs and `do_maintenance_by_collector` are steps of a state machine over values, not methods of a class: a method cannot be interrupted between its steps, and the interruption is the point.
- Failed compare-and-set: it changes nothing shared, so it has no step.
- `store` is a swap followed by a drop, and a pointer cell's own drop is a swap with null followed by a drop; they have no steps of their own.
- Initialising the weak part is one step: it is made, put on the pending list and linked to its object at once. In the source the collector may already track it before it is linked; it then has its one reference and nothing else leads to it. Threads waiting for the initialisation are not modelled.
- Type erasure, vtable, pointer casts and field offsets: objects are identifiers with an address and a freed flag.
- Panic unwinding, and destructors that panic.
- CollectorBooks.CollectorThreadState.TakeNewCountersToTrack: threads that push new counters while the lists are being taken are covered by the protocol's `TakePending` step, not here; that pending slots differ from tracked ones is `ProtocolTheorems.BooksPartition`.
- CollectorBooks.CollectorThreadState.FreePointers: the order in which one pass frees is left open, as the source's key order carries no meaning.
- Quiescence.CollectQuietly: garbage in a cycle of references is never freed by the source, and garbage so deep that the cut-off at 100000 passes fires is left for the next iteration.
- ReaderCriticalSection.SpinUntilObservingNonCriticalSectionOnceInEachShard: the source never gives up on a shard; here it does after a number of loads, which is arbitrary. That readers do leave is the scheduler's affair.
- CollectorStatus.UpdateNowAndWait: when the waiter is woken is a parameter; that the collector notifies it after every iteration is not modelled.
- CollectorStatus.CollectorThreadMain: iteration counters do not overflow 64 bits, and the endless loop is cut after any number of iterations.
- Thread spawning, parking, condition variables, logging, status reports and spin warnings.
- Environment parsing and thread-id hashing: a shard index is any index in range.
- `AtomicSdarc`: thin forwarding to the nullable version.
- Initialising the cells of a new allocation, and dropping them: plain writes in a loop.
