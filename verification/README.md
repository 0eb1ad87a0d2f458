# Verified models of the RendezvOS kernel core

RendezvOS is a small multiprocessor kernel core. This project models nine of its parts in Dafny and proves what
they are there for. Protocols between processors (epoch reclamation, ports and message transfer, address-space
switching, range locks) are step systems: every step is one atomic access of the source, and the theorems hold in
every state of every run, over any number of processors and threads, with any interleaving. Data structures that
one processor changes in place under a lock (page slice, page tables, name index, port cache, buddy allocator,
scheduler ring, serializer) are classes and methods with loops, proved against a map, a set or a function that does
not mention how they work. Atomics are taken to be sequentially consistent.

| file | part |
|---|---|
| EpochReclamation.dfy | reader sections, epoch scans, retirement and re-entrant free callbacks |
| Rendezvous.dfy, RendezvousClosing.dfy | port rundown, matching of senders and receivers, message transfer; waiting threads and a closing port |
| PageSliceMemory.dfy, PageSliceSubtrees.dfy, PageSlices.dfy, PageSliceClone.dfy | the variable-height radix index from page offset to page, and its clone |
| PageTableMemory.dfy, PageTables.dfy, PageTableSweep.dfy | four-level page tables and their teardown |
| ProbePaths.dfy, NameIndexes.dfy, PortCaches.dfy | open-addressing name index and the per-thread cache in front of it |
| BuddyBlocks.dfy, BuddyRecords.dfy, BuddyAllocator.dfy | buddy allocator |
| RangeLocks.dfy, RangeLockRaces.dfy, RadixWalk.dfy, RadixSearch.dfy | two-level range locks and what breaks them, level walker and occupied-interval search |
| RoundRobin.dfy, AddressSpaceUse.dfy | round-robin choice; reference counts and TLB masks of address spaces |
| IpcSerial.dfy | tag-length-value serializer |

## How to read it

- Trees in memory (page slice, page tables) are maps from address to page, together with a ghost *geometry* that says
  which position each page is at. The invariant is then a set of local facts, one per page and slot, and the map the
  tree stands for is read off the leaf pages.
- A predicate called *folded* is its contents behind a quantifier over a one-element `Key` type; a proof that needs
  the contents mentions the key. It keeps proofs of clients small.
- Where the code does not keep a property, the model keeps the code, a lemma or method shows an input that breaks the
  property, and a contract says for all inputs when it holds. There are six such places:
  - `map` of a 4K page below a level-2 entry that has the huge bit but is not valid fails after hanging in a table
    that has not been cleared (kernel/mm/map_handler.c:584-614). `MapOutcome` gives the exact effect,
    `JunkHarmlessIff` says when it is harmless, `FailedMapShowsJunk` is the run.
  - Rolling back a failed insertion writes zero, lock bit included, to a level-0 radix entry of the user half that
    counts nothing (kernel/mm/vmm_radix_tree.c:916-943), and any rollback unmaps the level-2 table below a level-1 entry
    that counts nothing and gives it back (905-914, 230-251). As long as no failing insertion touches such a level-0
    entry (`Careful`), who waits for a level-2 entry waits for a processor that waits for nothing, no processor is ever
    at an entry of a table that has been given back (`NeverAtFreedTable`), and there is no deadlock. Conversely, from any
    insertion that fails otherwise, with two idle processors, there are steps to a processor waiting for one that has not
    its range yet (`CarelessWaits`), to two processors using the same level-2 entry (`CarelessShares`), and to a
    processor at an entry of a table that has been given back (`CarelessUsesFreed`). Overwriting a level-0 entry also
    loses tables that are not given back; with three idle processors there are steps to one that waits for a bit in such
    a table (`CarelessStrands`), and nobody will ever clear it (`StrandedForever`). `FirstInsertFails` is such a
    failure: the first insertion into an empty address space, for want of memory.
  - When an insertion succeeds, the flags that carry counts upwards are combined with a short-circuiting "and"
    (kernel/mm/vmm_radix_tree.c:1152-1161 and 1206-1214), so of a range below several level-1 entries the last one is
    not counted. `CountExactIff` says which insertions keep counts exact: those below one level-1 entry, and those that
    end below one that counts something already. As long as there are only such insertions (`Carries`) and none that
    overwrites, level-2 entries are held by one processor each (`RangesExclusive`). Conversely, from any other
    successful insertion, with the other processors idle, there are steps to two processors using the end of its range
    (`UncarriedShares`); `FirstInsertCrosses` is such an insertion.
  - A level-3 walk step inside a 2M band without a table moves a null pointer (kernel/mm/vmm_radix_tree.c:523-527);
    `Advance` says exactly when, `WildStep` is such a step.
  - The `order` field does not reveal a second free of a page inside a merged block (kernel/mm/buddy_pmm.c:268).
    `FreeIndex` refuses exactly the pages that show an order; an accepted call leaves the records in order exactly if
    the page was in use (`FreeTwice`). `SecondFree` frees a page twice. `Free` keeps the zone in order exactly if each
    page has an owner.
  - Offsets into a serialized message are 32-bit sums that wrap around, so the decoder can look for the last byte of a
    string outside of its buffer (kernel/ipc/ipc_serial.c:213-220 and 268). `ReadsInside` says exactly which fields do
    that, `DecodedAstray` exactly which messages; `WrappedTextStrays` is a message of nine bytes.

## Model

| member | source | states |
|---|---|---|
| EpochReclamation.ApplyInv | kernel/task/ebr.c:114-275 | every atomic step of enter, exit, scan, sweep, retire and of the clients keeps the inductive invariant |
| EpochReclamation.RunInv | kernel/task/ebr.c:114-275 | the invariant holds in every state of every interleaving on any number of processors |
| EpochReclamation.NoUseAfterFree | kernel/task/ebr.c:114-204 | a node is freed at most once, and never while a processor in its section may still reach or holds it |
| EpochReclamation.ScanSparesLaterRetirements | kernel/task/ebr.c:163-204 | what a scan frees was retired before that scan started, so records added by a callback that re-enters the reclaimer survive the outer scan |
| EpochReclamation.ExpiredIsUnreachable | kernel/task/ebr.c:141-161 | a record below the epoch a scan computed processor by processor is outside every open section |
| EpochReclamation.SafeFromIsMinimum | kernel/task/ebr.c:141-161 | the safe epoch of an undisturbed scan is the least of the global epoch and the active processors' epochs |
| EpochReclamation.ReclaimFreesExpired | kernel/task/ebr.c:163-204 | a reclaim that runs alone frees exactly the records below the safe epoch |
| Rendezvous.RunInv | kernel/ipc/ipc.c:91-559 | the invariant of port rundown, waiting and transfer holds in every state of every run |
| Rendezvous.DrainedPortStaysQuiet | kernel/ipc/port.c:144-171 | once the closing thread has seen the operation count at zero, nobody is inside the port again, its queue only loses requests, and it is empty for good once closed |
| Rendezvous.CleanRunsDrained | kernel/ipc/port.c:416-462 | the clean runs only after the count was seen at zero, by the one closer, and ends with an empty queue |
| Rendezvous.CloseLeavesNobodyBlocked | kernel/ipc/port.c:196-269 | no thread that waits on a closed port is left blocked, unless a failed transfer abandoned it |
| RendezvousClosing.CloseWakesQueued | kernel/ipc/port.c:196-269 | a thread whose request is queued when the count was seen at zero is not blocked in that wait once the port is closed, without exception |
| RendezvousClosing.AbandonedStayBlocked | kernel/ipc/ipc.c:191-338 | in every run an abandoned thread is one that waits, blocked or exiting, with its request in no queue and nobody's hands |
| RendezvousClosing.FlagSeenOnWaking | kernel/ipc/port.c:255-266 | the closed flag set for a waiting thread is still set when it comes back from sleep |
| Rendezvous.CleanFlagsSenders | kernel/ipc/port.c:196-269 | the clean makes a sender ready only with its closed flag already set |
| Rendezvous.TransfersNeverOverlap | kernel/ipc/ipc.c:191-338 | two transfers on one sender are never under way at the same time |
| Rendezvous.PutBackFindsSlotFree | kernel/ipc/ipc.c:191-338 | a message given back after an exiting receiver always finds the pending slot free |
| Rendezvous.MessagesLeaveInOrder | kernel/ipc/ipc.c:671-687 | what a sender queued is what has left, plus the message in hand, plus the pending slot, plus the queue, in that order; no message leaves twice |
| Rendezvous.AcceptedIsDelivered | kernel/ipc/ipc.c:191-338 | an accepted message is in the queue of the receiver that accepted it |
| Rendezvous.AcceptedOnlyAlive | kernel/ipc/ipc.c:191-338 | a message is accepted by a receiver only at a step where that receiver is not exiting |
| PageSliceMemory.RequiredServes | kernel/mm/page_slice.c:69-78 | the required height is the least height whose root serves the offset |
| PageSliceMemory.CapIsCapacity | kernel/mm/page_slice.c:97-115 | the cap of a live counter is the capacity of the page it counts, so an exact counter is never held back |
| PageSliceMemory.IncRepairs | kernel/mm/page_slice.c:117-128 | a counter that is one behind is made exact by counting up |
| PageSliceMemory.DecRepairs | kernel/mm/page_slice.c:130-139 | a counter that is one ahead is made exact by counting down |
| PageSliceMemory.RaiseAll | kernel/mm/page_slice.c:143-185 | one more level on top keeps the tree well shaped and maps the same |
| PageSliceMemory.AttachAll | kernel/mm/page_slice.c:231-259 | hanging in a fresh page keeps every counter exact and the map the same |
| PageSliceMemory.DetachAll | kernel/mm/page_slice.c:405-433 | taking out an empty page keeps every counter exact and the map the same |
| PageSliceMemory.CollapseAll | kernel/mm/page_slice.c:507-532 | replacing the root by its only child in slot 0 keeps the tree well shaped and the map |
| PageSliceMemory.TightRoot | kernel/mm/page_slice.c:499-545 | with nothing mapped, a tree grown without allocation failure is at most a chain of index pages at slot 0 |
| PageSlices.CountersExact | kernel/mm/page_slice.c:104-139 | in every valid state each live counter is the number of slots or cells in use below it and within its cap, and `mapped_entries` is the map's size |
| PageSlices.Create | kernel/mm/page_slice.c:549-567 | a new slice is valid, of the given size, and maps nothing; which sizes are refused |
| PageSlices.Slice.RaiseHeight | kernel/mm/page_slice.c:143-185 | reaches the target height or runs out of memory, with the same map either way |
| PageSlices.Slice.Grow | kernel/mm/page_slice.c:187-303 | finds or allocates the leaf page of an offset; the map stays the same even on failure |
| PageSlices.Slice.Find | kernel/mm/page_slice.c:187-303 | finds the leaf page exactly if there is one, with the entries passed on the way |
| PageSlices.Slice.LeafIndexEntry | kernel/mm/page_slice.c:24-50 | returns the place of the entry that points to the leaf page |
| PageSlices.Slice.Lookup | kernel/mm/page_slice.c:648-664 | returns what the finite map says about the offset |
| PageSlices.Slice.Insert | kernel/mm/page_slice.c:666-706 | adds the offset only if absent; conflicts, bad parameters and lack of memory leave the map alone; which error when |
| PageSlices.Slice.CascadeUp | kernel/mm/page_slice.c:405-433 | frees the emptied index pages on the way and maps the same |
| PageSlices.Slice.RemoveLocked | kernel/mm/page_slice.c:435-495 | takes exactly the offset out of the map, and gives its page back unless pinned |
| PageSlices.Slice.Shrink | kernel/mm/page_slice.c:499-545 | keeps the map, and leaves no page at all if nothing is mapped and no allocation has failed |
| PageSlices.Slice.Remove | kernel/mm/page_slice.c:708-730 | takes exactly the offset out; removing the last page returns every index and leaf page in runs without allocation failure |
| PageSlices.Slice.SetSize | kernel/mm/page_slice.c:581-620 | restricts the map to the new page count and gives the cut pages back, each once; size zero destroys, too large a size changes nothing |
| PageSlices.Slice.FreeIndexPage | kernel/mm/page_slice.c:368-389 | gives back everything at and below an index page, each page once, and the data pages of its span in order |
| PageSlices.Slice.Destroy | kernel/mm/page_slice.c:622-646 | leaves no page, and gives back every data page that is not pinned, once |
| PageSliceClone.CopyEntry | kernel/mm/page_slice_copy.c:204-230 | copies a bound page to a fresh one with the pin flag cleared, or runs out of memory |
| PageSliceClone.CopyLeaf | kernel/mm/page_slice_copy.c:236-249 | extends the copy by the 128 offsets of a leaf page |
| PageSliceClone.CloneWalk | kernel/mm/page_slice_copy.c:251-365 | terminates, visits each leaf page exactly once with its first offset, in ascending order, and copies the whole map |
| PageSliceClone.Clone | kernel/mm/page_slice_copy.c:367-394 | yields a slice of the same size and offsets, with equal contents in distinct fresh pages |
| PageTableMemory.PutLeaf3 | kernel/mm/map_handler.c:616-646 | writing a 4K entry changes the translation of exactly one page number |
| PageTableMemory.PutLeaf2 | kernel/mm/map_handler.c:434-453 | writing a 2M entry where no table hangs changes the translation of exactly one block |
| PageTableMemory.HangLookup | kernel/mm/map_handler.c:584-614 | a new table shows exactly its own valid entries, so a cleared one changes nothing |
| PageTables.AddressSpace.NextTable | kernel/mm/map_handler.c:353-420 | finds or allocates the next table; no translation changes; fails only without a spare page |
| PageTables.AddressSpace.MapPage | kernel/mm/map_handler.c:579-646 | sets exactly one page; succeeds exactly if no 2M entry is there and no other page or a remap is asked for |
| PageTables.AddressSpace.MapBlock | kernel/mm/map_handler.c:422-578 | sets exactly one block; succeeds exactly if aligned and nothing, the same page or an all-zero table is there |
| PageTables.AddressSpace.Map | kernel/mm/map_handler.c:288-678 | success changes exactly the page or block asked for; failure changes no translation, with the one exception spelled out; when it succeeds |
| PageTables.JunkHarmlessIff | kernel/mm/map_handler.c:584-614 | in the exceptional failure translations stay as they are exactly if the page hung in held no valid entry |
| PageTables.FailedMapShowsJunk | kernel/mm/map_handler.c:584-614 | two calls after which a failed map has made an uncleared page's entry a translation |
| PageTables.AddressSpace.Unmap | kernel/mm/map_handler.c:680-792 | removes exactly one leaf and returns its page; otherwise no translation changes |
| PageTables.AddressSpace.HaveMapped | kernel/mm/map_handler.c:793-889 | returns what the translation map says, with level and entry |
| PageTableSweep.FreeUserTables | kernel/mm/map_handler.c:935-1065 | keeps every translation, frees each idle user table once, leaves the root and the tables of the kernel half, and succeeds exactly if no user page is translated |
| PageTableSweep.SweepEntries | kernel/mm/map_handler.c:948-1060 | after a loop over a table's entries what is left below them is in use, and the flag says whether anything is |
| ProbePaths.PathKept | kernel/registry/name_index.c:239-279 | a change that empties no bucket and takes none from a row keeps the row on its probe path |
| ProbePaths.FirstFree | kernel/registry/name_index.c:246-255 | the probe finds the first bucket it can use, exactly if the table has one |
| NameIndexes.NameIndex.Rehash | kernel/registry/name_index.c:63-111 | places every used row on its path in the new table; it never fails for lack of room |
| NameIndexes.NameIndex.HtInsert | kernel/registry/name_index.c:239-260 | reaches every row again or leaves the others reachable; succeeds exactly if there is memory or the table takes one more; the recursion ends because a new table has room |
| NameIndexes.NameIndex.HtRemove | kernel/registry/name_index.c:262-279 | exactly one bucket of the row on that path becomes a tombstone, if there is one, and at most the removed row loses its path |
| NameIndexes.NameIndex.MaybeShrink | kernel/registry/name_index.c:201-237 | shrinks to the stated size exactly when due and memory allows, with every row reachable, the size a power of two and the load rule kept |
| NameIndexes.NameIndex.GrowRows | kernel/registry/name_index.c:113-164 | new rows go on the free list, which again holds exactly the free rows once each |
| NameIndexes.NameIndex.Search | kernel/registry/name_index.c:281-314 | finds a row exactly if some row has the name, and with unique names that row |
| NameIndexes.NameIndex.Register | kernel/registry/name_index.c:382-427 | adds the value in a free row or changes nothing, with all generations kept; it succeeds exactly if the name is not empty and the rows and the table that are needed can be allocated |
| NameIndexes.NameIndex.Unregister | kernel/registry/name_index.c:453-473 | takes exactly that row out and advances its generation, if it holds the value |
| NameIndexes.FindAfterRegister | kernel/registry/name_index.c:382-427 | as a map from names, registering a new name adds that name only and names stay unique |
| NameIndexes.FindAfterUnregister | kernel/registry/name_index.c:453-473 | as a map from names, unregistering removes that name only |
| NameIndexes.NameIndex.Lookup | kernel/registry/name_index.c:475-501 | returns what the name map says, with a token of the row |
| NameIndexes.NameIndex.Resolve | kernel/registry/name_index.c:503-546 | with any token at all, a result is what the name map says |
| PortCaches.PortCache.CacheLookup | kernel/task/thread.c:390-417 | whatever the slots hold, a hit is what an uncached lookup returns |
| PortCaches.PortCache.LookupPort | kernel/task/thread.c:478-499 | the cache is transparent, whatever was registered since and whatever hashes and generations collide |
| PortCaches.PortCache.Victim | kernel/task/thread.c:457-473 | the slot of greatest 16-bit age is the least recently touched one if all were touched within 65535 ticks |
| PortCaches.PortCache.Record | kernel/task/thread.c:419-475 | stores the token; only the least recently touched slot is ever given up |
| BuddyBlocks.CeilLog2 | include/common/mm.h:88-115 | the least order whose block has room for n pages, for every 32-bit n |
| BuddyRecords.BuddyOrderGenuine | kernel/mm/buddy_pmm.c:282-301 | a candidate buddy shows the order exactly if it is a free block of that order, stale order fields notwithstanding |
| BuddyAllocator.MergeStep | kernel/mm/buddy_pmm.c:278-313 | merging with a free buddy keeps lists, counters and orders right and the pages the same |
| BuddyAllocator.SplitStep | kernel/mm/buddy_pmm.c:170-183 | splitting a block keeps lists, counters and orders right and the free pages the same |
| BuddyAllocator.Zone.FreeIndex | kernel/mm/buddy_pmm.c:259-323 | refused, without a change, exactly for a page outside the zone or one that shows an order; of a page in use exactly that page becomes free, and blocks stay disjoint, aligned, contiguous and fully merged with the total the sum of counts times sizes; of a page already free no set of free blocks agrees with what is left |
| BuddyAllocator.Zone.AllocOrder | kernel/mm/buddy_pmm.c:101-209 | hands out an aligned contiguous block of free pages and nothing else; fails exactly if no block is large enough |
| BuddyAllocator.Zone.Alloc | kernel/mm/buddy_pmm.c:210-258 | hands out at least the number asked for and less than twice as many, in one block; no memory exactly if fewer pages are free or no block of the order or a larger one is |
| BuddyAllocator.HandedAligned | kernel/mm/buddy_pmm.c:101-209 | where frame numbers agree with page indexes modulo the largest block, a block handed out starts at a frame that is a multiple of its size |
| BuddyAllocator.Zone.Free | kernel/mm/buddy_pmm.c:324-385 | drops one reference of each page; if all were owned, exactly those without another become free and the zone stays valid; otherwise a reference count is left negative; pages outside the zone are refused |
| BuddyAllocator.FreeGains | kernel/mm/buddy_pmm.c:277-321 | merging upwards from a page in use gives records that agree with the free pages and that page |
| BuddyAllocator.FreeTwice | kernel/mm/buddy_pmm.c:268-321 | merging upwards from a page that is free already gives records that agree with no set of free blocks |
| BuddyAllocator.SecondFree | kernel/mm/buddy_pmm.c:324-385 | frees both pages of a zone and one of them again: the call succeeds and the lists are broken |
| RangeLocks.ApplyInv | kernel/mm/vmm_radix_tree.c:879-1293 | every lock, unlock, failure and rollback step that overwrites no level-0 entry keeps the invariant |
| RangeLocks.RunInv | kernel/mm/vmm_radix_tree.c:1416-1451 | in runs in which no failing insertion touches a level-0 entry of the user half that counts nothing, level-0 entries are held by one processor each, marked as long, and lock bits that can be reached have a holder |
| RangeLocks.NeverAtFreedTable | kernel/mm/vmm_radix_tree.c:905-943 | in such runs no processor is at a level-2 entry of a table that has been unmapped and given back |
| RangeLocks.WaitsOnlyForSettled | kernel/mm/vmm_radix_tree.c:1043-1065 | in such runs who waits for a level-2 entry waits for a processor that has its range, has given back the level-0 entry above and waits for nothing |
| RangeLocks.NoDeadlock | kernel/mm/vmm_radix_tree.c:1297-1317 | in such runs, whenever some processor is not idle, some processor can go on |
| RangeLocks.CountExactIff | kernel/mm/vmm_radix_tree.c:1093-1263 | a successful insertion keeps counts exact exactly if it is below one level-1 entry or ends below one that counts something |
| RangeLocks.ApplyInv2 | kernel/mm/vmm_radix_tree.c:879-1293 | every step that overwrites nothing and leaves counts exact keeps the level-2 locks exact as well, taking of tables in rollback included |
| RangeLocks.RunInv2 | kernel/mm/vmm_radix_tree.c:1416-1451 | the same over every run of such steps |
| RangeLocks.RangesExclusive | kernel/mm/vmm_radix_tree.c:1043-1065 | in such runs no level-2 entry is held by two processors, and the lock bit of a held one is set in the table that is there |
| RangeLockRaces.CarelessWaits | kernel/mm/vmm_radix_tree.c:916-943 | any other failing insertion can be followed by a wait for a processor that is still taking entries, both with the same level-0 entry |
| RangeLockRaces.CarelessShares | kernel/mm/vmm_radix_tree.c:916-943 | it can be followed by two processors using the same level-2 entry |
| RangeLockRaces.CarelessUsesFreed | kernel/mm/vmm_radix_tree.c:230-251 | it can be followed by a processor at a level-2 entry of a table that a rollback has unmapped and given back |
| RangeLockRaces.CarelessStrands | kernel/mm/vmm_radix_tree.c:916-943 | with three idle processors it can be followed by a wait for a bit in a table that the overwritten level-0 entry led to, which is out of reach but not given back, and by a deadlock if the others are idle |
| RangeLockRaces.StrandedForever | kernel/mm/vmm_radix_tree.c:1043-1065 | who waits for a bit in a table that is out of reach and was not given back is still waiting after any steps |
| RangeLockRaces.FirstInsertFails | kernel/mm/vmm_radix_tree.c:946-979 | the first insertion into an empty address space, failing for want of memory, is such a failure |
| RangeLockRaces.UncarriedShares | kernel/mm/vmm_radix_tree.c:1152-1236 | a successful insertion whose end is not counted can be followed by two processors using its last level-2 entry, after a query or an insertion that fails for want of memory has taken the table away |
| RangeLockRaces.FirstInsertCrosses | kernel/mm/vmm_radix_tree.c:1152-1236 | the first insertion into an empty address space, across a boundary of 1 GiB, is such an insertion |
| RadixWalk.Init | kernel/mm/vmm_radix_tree.c:354-421 | the cached pointers are those of a fresh walk to the start of the range |
| RadixWalk.Advance | kernel/mm/vmm_radix_tree.c:426-551 | after a step the cached pointers are those of a fresh walk, except for the null leaf pointer; when a step succeeds |
| RadixWalk.WildStep | kernel/mm/vmm_radix_tree.c:523-527 | a tree and a walk over two pages whose step moves the null leaf pointer |
| RadixSearch.Scan | kernel/mm/vmm_radix_tree.c:581-704 | the nested loops find the first occupied page of the range |
| RadixSearch.FindInterval | kernel/mm/vmm_radix_tree.c:705-783 | returns the maximal run of equally flagged occupied pages that starts at the first occupied one |
| RadixSearch.Enumerate | kernel/mm/vmm.c:249-477 | asking again from the previous end terminates and yields all runs in order |
| RadixSearch.RunsCover | kernel/mm/vmm.c:249-265 | the intervals cover exactly the occupied pages, with their flags |
| RadixSearch.RunsMaximal | kernel/mm/vmm.c:249-265 | no interval can be extended at either end |
| RadixSearch.RunsAscend | kernel/mm/vmm.c:476-477 | the intervals are disjoint and ascending |
| RoundRobin.Scan | kernel/task/task_manager.c:13-24 | the walk over the ring ends at the first ready thread after the current one |
| RoundRobin.TaskManager.Schedule | kernel/task/task_manager.c:100-180 | with an idle thread that never blocks, the choice is always defined and is the first ready thread after the current one; it becomes current if the switch of address space succeeds, and the statuses are as stated |
| RoundRobin.TaskManager.Add | kernel/task/thread_boot.c:188-208 | a thread that is not linked yet goes to the end of the ring and becomes ready |
| RoundRobin.TaskManager.Remove | kernel/task/thread_boot.c:209-237 | the current thread is refused, any other leaves the ring |
| RoundRobin.ChosenInTime | kernel/task/task_manager.c:13-24 | a thread that stays ready is the current one after at most one ring length of calls whose switch succeeds, whatever the other threads do and whichever calls fail in between |
| AddressSpaceUse.ApplyInv | kernel/task/task_manager.c:123-163 | every step of switching, creating, sharing and dying keeps counts and masks right |
| AddressSpaceUse.RunInv | kernel/task/thread.c:187-195 | in every run of switches and thread deaths a count is the number of owning threads plus processors holding the space, and a mask the set of processors marked for it |
| AddressSpaceUse.SettledExact | kernel/task/task_manager.c:133-162 | with no switch under way, the mask is the set of processors on the space and the count adds the owning threads |
| AddressSpaceUse.GetSucceeds | kernel/task/task_manager.c:133-140 | the space of a thread that owns a reference to it can always be taken, so the switch of `schedule` does not fail |
| AddressSpaceUse.DyingMaskEmpty | kernel/mm/vmm.c:577-602 | the last put always finds an empty mask, no owner and no processor, until the space is deleted |
| IpcSerial.BytesRoundTrip | kernel/ipc/ipc_serial.c:81-109 | a number of n bytes is read back from its n bytes |
| IpcSerial.Measure | kernel/ipc/ipc_serial.c:121-144 | returns the length of the encoding, modulo the 32-bit wrap, exactly for known formats |
| IpcSerial.WriteField | kernel/ipc/ipc_serial.c:51-119 | appends exactly one field if it fits |
| IpcSerial.EncodeInto | kernel/ipc/ipc_serial.c:146-172 | succeeds exactly in a buffer of the measured size, which then holds the encoding |
| IpcSerial.Decode | kernel/ipc/ipc_serial.c:286-314 | computes the decoding function, for any buffer |
| IpcSerial.ReadsInside | kernel/ipc/ipc_serial.c:209-284 | exactly which fields are read outside of the buffer: those with the right tag whose length wraps at 32 bits in the stated ways; an accepted field ends where its length says unless that wraps |
| IpcSerial.DecodedInside | kernel/ipc/ipc_serial.c:286-314 | decoding stays inside the buffer if no length field on the way wraps |
| IpcSerial.DecodedAstray | kernel/ipc/ipc_serial.c:286-314 | decoding reads outside of the buffer exactly if the count is right and, going from field to field by 32-bit ends, some field leads astray before any is refused |
| IpcSerial.WrappedTextStrays | kernel/ipc/ipc_serial.c:209-284 | nine bytes that make the decoder look for the last byte of a string at offset 0xFFFFFFFF |
| IpcSerial.RoundTrip | kernel/ipc/ipc_serial.c:209-314 | decoding an encoding with the same format returns the arguments, null and empty strings apart |

## Left out

- Weak memory: all atomics are sequentially consistent, and MS queues are atomic first-in-first-out queues.
- Epoch reclamation: an interrupt that enters a section in the middle of `ebr_enter`, wrap of the 64-bit epoch, watermark statistics and lazy initialisation.
- Rendezvous: the kernel message delivered to receivers on close with its receive-side flag and pending count, reference counts of messages and requests, `dequeue_recv_msg`, and liveness after failed transfers (only safety is stated there).
- Page slice: the list node of a leaf entry, flags other than VALID and PIN, `page_slice_copy_to_slice` and the byte-range copies; on a failed clone the data pages already copied are in the destroyed slice's release log, but their contents are not taken out of the page store.
- Page tables: the mapping windows, TLB invalidation, locks, architecture encodings other than VALID and HUGE, shared kernel-half tables and refilling policy; page numbers are taken modulo 36 bits. When a 2M map names the page of the level-3 table that hangs there, that table goes out of use without being given back, as in the source.
- PageTableSweep.FreeUserTables: the source's four nested loops are methods that call each other, one level each.
- Name index: the mask form of the bucket number (the size is proved to be a power of two), the two consistency checks on the head of the free list, which always pass, `name_index_fini`, and sizes that overflow 64 bits.
- Port cache: `count` is not proved equal to the number of slots in use, since a token with the invalid row number breaks it.
- Buddy allocator: building the lists at start-up, the reclaim callback with its retries, sections with their cursors (pages are given by index), and free lists as ordered lists (they are sets).
- Range locks: deletion. An insertion below one level-1 entry raises its count by at most one, however many level-2 entries it fills (kernel/mm/vmm_radix_tree.c:1152-1161), so a deletion can bring it to zero with others still in use; runs here have insertions and queries. Of counts, only whether they are zero is kept. What a processor at a table that has been given back reads there is not described.
- Radix tree: `leaf_bind_range`, the descending search, and page-unaligned search ends.
- RadixSearch.Scan: the locks taken around a band; the four nested loops are methods that call each other.
- RadixSearch.Enumerate: what the clone does with each interval.
- Scheduler: context switching, locks, and moving a thread between processors.
- IpcSerial.WriteField: the room check does not wrap at 32 bits, so encodings of 4 GiB and more are not described.
- IpcSerial.Decode: a length field that sends a read outside the buffer gives the outcome `Stray`; what such a read would return is not described.
- Drivers, interrupt controllers, boot, timers, kmalloc, ELF and logging: hardware access or plumbing.
