# HZ10 page substrate: model and proofs

A Dafny model of the memory substrate of the HZ10 allocator and of the handoff
protocols it relies on. `dafny verify dfyconfig.toml` checks everything.

## What is modelled

**Class page lists and the retired-ready handshake.** One size class of one
owner thread. `ReadyProtocol` is a step relation over the words that threads
share: the owner's moves (create, activate, allocate, local free, drain, evict,
retire, mark, pop, cancel, unlink, reclaim) and, one atomic operation at a time,
the remote frees of any number of other threads (claim; the note's flag load,
decrement, flag exchange, on-stack store and push; publish). A run is any
sequence of enabled events, so every interleaving is covered. The owner's events
follow `hz10_class_pages.c` (activate 69-73, evict 82-95 and 163, reclaim and
retire 166-183, move to front 117-125, unlink 137-143, drop and leave in place
271-291) and `hz10_freelist_page.h` (allocate 375-404, local free 421-427); mark,
the note's five operations, pop and cancel follow `hz10_retired_ready.c` (3-19,
21-70, 72-87, 89-97); claim, publish and drain follow `hz10_remote_stack.c`
(101-132, 134-156, 169-215), in the order of `hz10_public_entry.c` 623-634, all
under `hakozuna-hz10/src/`.
`ReadyInvariant` proves what every event keeps; `ReadySafety` draws the
consequences over whole runs (no live object's page is destroyed, handshake
pages are in `retired`, the ready loop ends); `ReadyHint` and `ReadyCount` prove
what the outstanding count means and when a page gets onto the ready stack; `Stranding` proves which retired pages can ever leave
again; `SweepRotation` is the theory of the persistent cursor. `PageLists`,
`ClassCounters`, `ClassFacts` and `ClassPages` are the program: intrusive doubly
linked lists on the heap, the cursor, the counters, and the operations as
methods that take the protocol's events, with arbitrary steps of other threads
in between. Every method keeps the heap lists equal to the abstract ones.
`ClassRuns` runs any sequence of these operations and draws the conclusion about
head-of-line blocking, and walks whole rounds of the sweep.

**Remote frees at word level.** `RemoteStack` models claim bits, Treiber stacks
threaded through the slots, and the exchange-drain, with links in memory;
`RemoteDrain` is the drain loop and a round of the microbench.
`RemoteRefinement` shows that the words implement the atomic claim, publish and
drain of `ReadyProtocol`: every interleaving of the words is a run of it.

**Handoffs between threads.** `TicketInbox` is the ticket inbox, `RingExit` the
ring of single-producer inboxes with its exit protocol, `RingProgress` why it
cannot lock up, `PublicBench` the workers
of the public-entry bench with mutex inboxes and the two-barrier drain,
`SpinBench` the same workers with ticket inboxes, `SpinWaiting` the exact
condition on which they can come to a stop, `SpinProgress` that otherwise they
always finish, `ReadyBench` the producer-done guard.
`RingIndex` holds the arithmetic of ring cells, `Basics` what several models
share.

**Pages and memory.** `FreelistPage` is one page (chain or bump), `PagePool` the
capped pool with aging, `PageMap` the two-level page map and its two routes.
`MemoryProtocol` is a step relation in which every critical section or atomic
operation on the reservoir, the descriptor list, the page map and the pool is one
event of some thread; it proves one owner per quantum and one use per descriptor
on every run of any threads. `GenerationWrap` is a run that uses up the
generations of a quantum. `PageLifecycle` is the program: creation, destruction,
pooling and purging as methods of one thread, with any events of other threads
before each of its own. `Regions` has the trimming arithmetic and the large
blocks, `Routing` the classification of addresses and `RouteTable` the
open-addressing table of the route bench.

Each atomic operation is one step under sequential consistency. Clocks, random
draws, allocation failures and what the system answers to a reservation are
inputs. Integers are unbounded except where the width matters: the outstanding
count and generations wrap at 2^32, the page index is cut to 32 bits, pool ages,
address offsets and the doubling of capacities wrap at 2^64.

## What turned out differently

- The header (`hakozuna-hz10/src/hz10_class_pages.h:145-148`) says that a ready
  candidate found not idle and without capacity is found later by the cursor
  walk. The code lowers the flag when the page is pushed, raises it only at the
  next eviction, and the walk acts only after winning the flag. So such a page
  stays in `retired` for ever, even when all its slots are free
  (`Stranding.FalsePositiveStrands`, `Stranding.IdlePageStrandedReachably`), and
  each later sweep counts it as a lost race. `Stranding.RetiredPageCanLeaveIff`
  gives the exact condition, on all states that runs can reach.
- The generation guard on popped candidates never fires
  (`ReadySafety.NoStaleCandidate`): a page in the handshake is never destroyed.
- A note that wins the flag may have read the count of an earlier mark of the
  same page: the decrement and the flag exchange are two steps. The invariant
  and the safety results cover that interleaving; the count is exact only for
  the mark during which the decrement ran.
- The ticket inbox needs two cells: with one, the next ticket's turn looks like
  the last one's delivery (`TicketInbox.FifoIff`). One cell is a limit of the
  header's sizing function only. The bench raises its capacity option to at least
  1024 and otherwise asks for one cell more than there can be pushes, so wherever
  a worker can push there are two cells or more (`TicketInbox.BenchInboxIsFifo`).
- A ticket inbox that is smaller than what can be sent to it can stop the bench.
  A worker that waits for room in the inbox of one that has reached the first
  barrier waits for ever: that one drains only after the barrier, and the barrier
  needs the waiter (`SpinBench.BarrierWaitIsForever`); so do two workers that wait
  for room in each other's inboxes (`SpinBench.MutualWaitIsForever`). The bench
  can stop exactly when the share of remote frees is not 0, it is given a capacity
  option, and the capacity that rounds up to is less than iterations * (workers - 1)
  (`SpinWaiting.BenchStopsIff`); otherwise every run finishes
  (`SpinProgress.EveryRunFinishes`). At the smallest option, 1024, two workers can
  stop from 1025 iterations on (`SpinWaiting.SmallestThatStops`); if every free is
  remote no draw matters then, only the schedule. With the capacity that the bench
  computes itself no push ever waits (`SpinBench.DefaultNeverWaits`).
- A 32-bit generation that wraps is 0, which creation takes for a failed
  registration; the record stays in the page map although no page is over the
  quantum. `MemoryProtocol.OrphanIff` says exactly when, on every run, and
  `GenerationWrap.PooledYetListedReachably` gives a run. Single ownership of
  quanta and descriptors holds on through it.
- The second of the two final drains of the public-entry bench never finds
  anything (`PublicBench.NothingIsDropped`).
- The comment in `hakozuna-hz10/bench/hz10_retired_ready_bench.c:48-65` places a
  page access after the publishing exchange. In the code
  (`hakozuna-hz10/src/hz10_remote_stack.c:138-155`) nothing follows it any more.
  The access that still comes after the last publish is the bench's own read of
  the owner token, by which it finds the done flag; it is what the flag protects,
  and only polled pages need it (`ReadyBench.SafeIff`).
- The page map keeps 31 bits of a quantum's number. Addresses that agree in them
  share a record, but the offset test turns the other one away
  (`PageMap.Map.RouteIsExact`).

## Model

| member | source | states |
|---|---|---|
| ReadyInvariant.CountMerged | hakozuna-hz10/src/hz10_remote_stack.c:186-206 | One exchange adds to the free count exactly the slots that were published on that stripe |
| ReadyInvariant.StepLists | hakozuna-hz10/src/hz10_class_pages.c:56-143 | No event breaks the lists: each page is in the list its kind names, once, and `active` is within the scan limit between operations |
| ReadyInvariant.StepPage | hakozuna-hz10/src/hz10_class_pages.c:152-189 | No event breaks the page fields: the free count counts the free slots, and a raised flag means retired, not on the stack, in nobody's hand, current generation |
| ReadyInvariant.StepSlot | hakozuna-hz10/src/hz10_remote_stack.c:101-156 | No event breaks the match between claimed slots and the remote frees that claimed them, one to one |
| ReadyInvariant.StepReady | hakozuna-hz10/src/hz10_retired_ready.c:21-97 | No event breaks the ready stack: no duplicates, one winner per page, and everything on it or about to be pushed is retired and untracked |
| ReadyInvariant.StepInv | hakozuna-hz10/src/hz10_class_pages.c:152-372 | Every event of the owner and of any other thread keeps the whole invariant |
| ReadyInvariant.RunInv | hakozuna-hz10/src/hz10_class_pages.c:152-372 | The invariant holds after every run, of any length and any interleaving |
| ReadySafety.OnlyIdlePagesAreDestroyed | hakozuna-hz10/src/hz10_class_pages.c:166-171 | In every interleaving a page is destroyed only by a reclaim of the owner, when all its slots are free, no remote free is inside it, and neither list nor the ready stack can reach it |
| ReadySafety.FreeUndoesAlloc | hakozuna-hz10/src/hz10_freelist_page.h:375-427 | A slot that is handed out can be freed, by its owner or by any thread that is not inside a free, and a local free at once undoes the allocation |
| ReadySafety.LiveObjectSurvives | hakozuna-hz10/src/hz10_class_pages.c:275-281 | An object nobody frees is still live, in the same page and slot, after any run |
| ReadySafety.HandshakePagesAreRetired | hakozuna-hz10/src/hz10_class_pages.h:133-154 | A page that is tracked, won by a note, or on the ready stack is linked in `retired` exactly once and nowhere else, with the generation it was marked with |
| ReadySafety.TakenPagesStayRetired | hakozuna-hz10/src/hz10_class_pages.c:308-360 | A page taken by a note or on the stack is neither destroyed nor promoted by any step |
| ReadySafety.RemoteFreeNeverBlocks | hakozuna-hz10/src/hz10_public_entry.c:623-634 | From claim to publish a remote free finds its page alive and its slot its own, and its next step is always enabled |
| ReadySafety.NoStaleCandidate | hakozuna-hz10/src/hz10_class_pages.c:263-274 | The generation guard on popped candidates never fires, in any interleaving |
| ReadySafety.PoppedCandidate | hakozuna-hz10/src/hz10_class_pages.c:261-262 | Whatever is on the ready stack is in `retired`, and popping it leaves strictly fewer pages the stack can still produce |
| ReadySafety.PendingStep | hakozuna-hz10/src/hz10_retired_ready.c:21-97 | No step but the owner's mark adds a page the stack can still produce, and a pop removes one |
| ReadySafety.PopsAreBounded | hakozuna-hz10/src/hz10_class_pages.c:261-292 | However remote frees interleave, the pops between two marks number at most the pages pending at the start: the ready loop ends |
| ReadySafety.FreeCountBound | hakozuna-hz10/src/hz10_class_pages.c:187-188 | The count a page is marked with never wraps: free slots never outnumber slots |
| ReadyHint.OwedFalls | hakozuna-hz10/src/hz10_retired_ready.h:62-72 | A step that gives no slot a new debt cannot raise a page's debt, and lowers it if some slot pays |
| ReadyHint.StepAccurate | hakozuna-hz10/src/hz10_retired_ready.c:3-33 | While a page is tracked its outstanding count covers every slot in use and every free that has still to decrement, through every event; by how much it exceeds them is `ReadyCount` |
| ReadyHint.DecrementHasItsUnit | hakozuna-hz10/src/hz10_retired_ready.c:26-27 | A decrement on a tracked page finds the count above zero: no underflow |
| ReadyHint.ZeroMeansNothingInUse | hakozuna-hz10/src/hz10_retired_ready.h:62-72 | The decrement that reaches zero is the last one: no slot of the page is in use and no free has still to decrement; one that does not goes on to publish |
| ReadyCount.RetireIsExactIff | hakozuna-hz10/src/hz10_class_pages.c:187-188 | A page is marked with exactly as many units as there are debts if and only if every slot that is not free still owes: nothing is published and no remote free of it is past its decrement |
| ReadyCount.SlackStep | hakozuna-hz10/src/hz10_retired_ready.c:21-33 | Through every event the count of a tracked page exceeds its debts by one more exactly if a slot was freed locally or a remote free found the flag down |
| ReadyCount.CountIsExact | hakozuna-hz10/src/hz10_retired_ready.h:62-72 | On every run, as long as the page is tracked: count = debts + what was amiss at the mark + the debts skipped since |
| ReadyCount.LastFreeIsListed | hakozuna-hz10/src/hz10_retired_ready.c:21-70 | A page is retired with nothing published and no remote free inside. As long as no slot is freed locally, nobody reads the flag before it is up, and the owner neither cancels nor pops the page: its count is exactly what its slots owe, whoever takes it to zero is about to take the flag, and once every slot has come back the page is on the ready stack |
| Stranding.StrandedForever | hakozuna-hz10/src/hz10_class_pages.c:323-335 | A retired page outside the handshake stays in `retired` through every run of every thread |
| Stranding.NotStrandedCanLeave | hakozuna-hz10/src/hz10_class_pages.c:254-372 | Any other retired page leaves `retired` on some run, which the lemma constructs |
| Stranding.RetiredPageCanLeaveIff | hakozuna-hz10/src/hz10_class_pages.h:145-148 | A retired page can ever be reclaimed or reused if and only if it is in the handshake or in the owner's hand |
| Stranding.FalsePositiveStrands | hakozuna-hz10/src/hz10_class_pages.c:287-291 | Every false positive leaves its page in `retired` for good; the header says a later sweep finds it |
| Stranding.IdleCancelFailsIffStranded | hakozuna-hz10/src/hz10_class_pages.c:331-335 | On an idle page the sweep loses the cancel race exactly when the page is stranded |
| Stranding.IdlePageStrandedReachably | hakozuna-hz10/src/hz10_retired_ready.h:36-43 | A run from the empty class to a page whose slots are all free and that can never be reclaimed |
| SweepRotation.RemoveAdvances | hakozuna-hz10/src/hz10_class_pages.c:137-143 | Removing any page, the one at the cursor included, pushes no other page back in the rotation |
| SweepRotation.EvictionAdvances | hakozuna-hz10/src/hz10_class_pages.c:179-183 | An eviction pushes back no page of the current round, and any other page by one place |
| SweepRotation.ExamineAdvances | hakozuna-hz10/src/hz10_class_pages.c:304-317 | Examining the next page brings every other page one place nearer |
| SweepRotation.ExamineRemoveAdvances | hakozuna-hz10/src/hz10_class_pages.c:337-359 | So does examining and removing it |
| SweepRotation.ExaminedInTime | hakozuna-hz10/src/hz10_class_pages.h:80-91 | Over any rounds that each advance a waiting page, the pages examined number at most the pages ahead of it plus one per eviction, and evictions do not count in the current round |
| SweepRotation.FullRound | hakozuna-hz10/src/hz10_class_pages.c:298-371 | From an empty cursor exactly ceil(n / budget) sweeps that promote nothing bring it back, and together they examine each of the n pages once, tail first |
| PageLists.Sublist.Prepend | hakozuna-hz10/src/hz10_class_pages.c:56-67 | The list is the node followed by the old list, with every link, end and length right |
| PageLists.Sublist.PopTail | hakozuna-hz10/src/hz10_class_pages.c:82-95 | Splits off exactly the last node, its links cleared, and leaves a well-linked list |
| PageLists.Sublist.Remove | hakozuna-hz10/src/hz10_class_pages.c:98-114 | Splices out exactly the node, wherever it is, clears its links and keeps the order of the others |
| ClassCounters.BalancedAfterEviction | hakozuna-hz10/src/hz10_class_pages.c:163-183 | The counters keep accounting for every page: evictions = destroyed + retired, list lengths = arrivals minus departures, the maximum is the true peak |
| ClassCounters.BalancedAfterReclaim | hakozuna-hz10/src/hz10_class_pages.c:276-279 | A reclaim from `retired` keeps the account, whichever mechanism found the page |
| ClassCounters.BalancedInPromotion | hakozuna-hz10/src/hz10_class_pages.c:283-285 | So does a promotion, with one page in hand |
| ClassPages.ClassPageList.constructor | hakozuna-hz10/src/hz10_class_pages.c:191-193 | An empty class is valid, with the chosen policy for hits |
| ClassFacts.RemoteSparesIdle | hakozuna-hz10/src/hz10_remote_stack.c:101-156 | No step of another thread can touch a page whose objects are all back |
| ClassPages.ClassPageList.Interfere | hakozuna-hz10/src/hz10_public_entry.c:623-634 | Any number of steps of other threads move no page between lists, unfree no slot, raise no flag and add no pending page |
| ClassPages.ClassPageList.Elapse | hakozuna-hz10/src/hz10_public_entry.c:623-634 | Steps of other threads leave both lists, the owner's counters and every idle page as they are |
| ClassPages.ClassPageList.DrainRemote | hakozuna-hz10/src/hz10_remote_stack.c:169-215 | Whatever other threads do meanwhile, everything published before the call is free after it; merged = 0 means nothing had been published, and then nothing but other threads' steps has happened |
| ClassPages.ClassPageList.UnlinkRetired | hakozuna-hz10/src/hz10_class_pages.c:137-143 | Unlinks the node and leaves the cursor in the list: moved one toward the head if it pointed at the node |
| ClassPages.ClassPageList.Dispose | hakozuna-hz10/src/hz10_class_pages.c:166-188 | An evicted page whose objects are all back is destroyed, any other heads `retired` and is tracked; the counters say which |
| ClassPages.ClassPageList.ExpelTail | hakozuna-hz10/src/hz10_class_pages.c:160-188 | Exactly the tail leaves `active`; it is destroyed if all its objects were back and heads `retired` otherwise |
| ClassPages.ClassPageList.EvictOne | hakozuna-hz10/src/hz10_class_pages.c:160-188 | Evicts the tail and only the tail; the new head survives untouched |
| ClassPages.ClassPageList.PrependActiveWithEviction | hakozuna-hz10/src/hz10_class_pages.c:152-189 | `active` is the page followed by the old list, cut at the scan limit; at most the old tail has moved to `retired`, and is tracked then; a page whose objects are all back is otherwise unchanged |
| ClassPages.ClassPageList.Add | hakozuna-hz10/src/hz10_class_pages.c:191-193 | The same for a new page, which has exactly the given number of slots, all free, and the given generation; every counter and link is accounted for and nothing else comes into the class |
| ClassPages.ClassPageList.AllocSlot | hakozuna-hz10/src/hz10_public_entry.c:252-259 | Handing out a slot of an active page is that one step of the owner and keeps every link, counter and list |
| ClassPages.ClassPageList.MoveToHead | hakozuna-hz10/src/hz10_class_pages.c:117-125 | Only permutes the list: the hit first, the rest in order |
| ClassPages.ClassPageList.FindWithCapacity | hakozuna-hz10/src/hz10_class_pages.c:195-252 | Null means every active page had no free slot and nothing published, and nothing but other threads' steps has happened; otherwise the result has capacity, every page before it had nothing, at most it has been drained, and `active` is only permuted |
| ClassPages.ClassPageList.TakeRetired | hakozuna-hz10/src/hz10_class_pages.c:137-143 | The abstract rotation after the removal is the one the redirect rule prescribes |
| ClassPages.ClassPageList.ReclaimRetired | hakozuna-hz10/src/hz10_class_pages.c:276-279 | Destroys exactly the page, keeps everything else and adds no pending page |
| ClassPages.ClassPageList.PromoteRetired | hakozuna-hz10/src/hz10_class_pages.c:283-286 | The page heads `active`, cut at the scan limit; `retired` lost it and gained at most the old active tail |
| ClassPages.ClassPageList.PopReady | hakozuna-hz10/src/hz10_retired_ready.c:72-87 | Null means the stack was empty; a popped page is in `retired` and no longer pending, and nothing else was touched |
| ClassPages.ClassPageList.OfferCandidate | hakozuna-hz10/src/hz10_class_pages.c:276-291 | A drained candidate is reclaimed if idle, promoted exactly if it has capacity and is not idle, and otherwise left in place and counted |
| ClassPages.ClassPageList.SettleCandidate | hakozuna-hz10/src/hz10_class_pages.c:271-291 | A candidate whose objects are all back is destroyed for sure; one with a free or published slot is promoted or destroyed; nothing pending is added and no other page loses a slot it had to offer |
| ClassPages.ClassPageList.Turn | hakozuna-hz10/src/hz10_class_pages.c:271-291 | A popped candidate's turn takes at most that page out of the rotation, with the cursor redirected, and is counted as promoted or destroyed or neither; nobody else is pushed back |
| ClassPages.ClassPageList.HarvestOne | hakozuna-hz10/src/hz10_class_pages.c:262-292 | One turn of the ready loop uses up a pending page or finds the stack empty, takes at most the popped page out of the rotation unless it promotes it, and keeps every other page's place |
| ClassPages.ClassPageList.HarvestReady | hakozuna-hz10/src/hz10_class_pages.c:258-292 | Ends in every interleaving; null means every candidate that was on the stack has been dealt with: not pending any more, and destroyed if it had a free or published slot or all its objects were back; the rotation is the old one without the pages it destroyed |
| ClassPages.ClassPageList.TryCancel | hakozuna-hz10/src/hz10_retired_ready.c:89-97 | Winning means the flag was up, losing means that it is down; on an idle page it is won exactly when the flag was up; it is the only step taken, and losing is counted |
| ClassPages.ClassPageList.Offer | hakozuna-hz10/src/hz10_class_pages.c:322-361 | A sweep promotes only a page with capacity that is not idle, does nothing only if there was no capacity, and always reclaims a tracked idle page; a page with capacity that is neither promoted nor destroyed is not tracked any more |
| ClassPages.ClassPageList.Examine | hakozuna-hz10/src/hz10_class_pages.c:304-367 | A tracked page whose objects are all back is always destroyed when examined; one that had a free or published slot is promoted, destroyed or not tracked any more; a page on the ready stack is left alone, and so is every other |
| ClassPages.ClassPageList.SweepStep | hakozuna-hz10/src/hz10_class_pages.c:304-367 | One page of the sweep keeps the round: it is the next one, it is recorded as looked at, the rest is untouched and every other page comes one place nearer |
| ClassPages.ClassPageList.Walk | hakozuna-hz10/src/hz10_class_pages.c:298-371 | Examines the next at most 4 pages of the round in order and, if it promotes none, leaves the cursor after them; what it promotes is the last one it examined. If it promotes none, no examined page that had a free or published slot is still tracked, every examined page that was tracked with all objects back is gone, and every other page is that much nearer |
| ClassPages.ClassPageList.Harvest | hakozuna-hz10/src/hz10_class_pages.c:254-372 | The result comes from `retired` and heads `active` with capacity. Null leaves `active` alone and is counted as a miss: every candidate that had a free or published slot is destroyed, and no examined page that had one is still tracked. The pages examined are recorded, and are the next ones of the old rotation without those that the ready candidates took out; null means all of the next 4 were, and the cursor stands after them. Unexamined pages come nearer by every page examined |
| ClassPages.ClassPageList.ReclaimAfterLocalFree | hakozuna-hz10/src/hz10_class_pages.c:375-412 | Succeeds exactly for an idle, tracked, retired page of the right size class, then takes exactly the steps that destroy it; otherwise nothing but other threads' steps has happened; the handshake is never lost |
| ClassPages.ClassPageList.FreeSlot | hakozuna-hz10/src/hz10_public_entry.c:613-618 | The owner's steps are the free and, exactly if that left a tracked retired page of the right size class idle, those that destroy the page. If not, the slot is free afterwards and the page has one free slot more; free and published slots of all other pages stay what they are |
| ClassRuns.Perform | hakozuna-hz10/src/hz10_class_pages.c:191-412 | One operation of the owner keeps the class valid and has its effect: the new page, the slot handed out, the slot freed or the page gone with it, the page found. A miss is a miss by the program's own counters, what it examined is what has been looked at, in the order of the rotation; after a miss no examined page that had a slot to offer is tracked, otherwise the page that heads `active` comes from `retired`. No waiting page is pushed back beyond the evictions, each comes nearer by every page examined, a harvest that misses examines a page, and an examined page that was tracked with all objects back is gone |
| ClassRuns.MissesExamine | hakozuna-hz10/src/hz10_class_pages.c:298-371 | While a page waits, harvests that come back empty-handed number at most the pages they examined |
| ClassRuns.MissesAreBounded | hakozuna-hz10/src/hz10_class_pages.h:80-91 | No head-of-line blocking: while a page waits unexamined, the empty-handed harvests number at most the pages that were ahead of it, plus the evictions if it was behind the cursor |
| ClassRuns.DueStays | hakozuna-hz10/src/hz10_retired_ready.c:35-97 | On every run, a tracked page whose objects are all back stays so as long as it stays in `retired`, unless the owner is about to take it out |
| ClassRuns.RunOps | hakozuna-hz10/src/hz10_class_pages.h:80-91 | No head-of-line blocking, for any sequence of adds, allocations, local frees, searches, harvests and reclaims, whatever other threads do in between: as long as a page stays in `retired` and no sweep looks at it, the harvests that came back empty-handed, by the program's counters, number at most the pages that were ahead of it, plus the evictions if it was behind the cursor. If the page was tracked with all objects back, staying is enough: no sweep has looked at it |
| ClassRuns.WalkRound | hakozuna-hz10/src/hz10_class_pages.c:298-371 | Walking from an empty cursor until it is empty again looks at each retired page exactly once, tail first, in ceil(n / 4) walks; unless a walk promotes a page, which is then the last one looked at, no page that was tracked with all objects back is left in `retired`, and none that had a slot to offer is still tracked |
| RemoteStack.StepInv | hakozuna-hz10/src/hz10_remote_stack.c:101-209 | Every step keeps the claim bits, the stacks and the detached chain consistent; a claim that fails goes no further |
| RemoteStack.ClearKeeps | hakozuna-hz10/bench/hz10_remote_rmw_microbench.c:150-159 | Clearing the bit before moving on is safe: another free may take the slot and overwrite its link, the walk goes on with the saved one |
| RemoteStack.BitMeansOnePlace | hakozuna-hz10/bench/hz10_remote_rmw_microbench.c:89-163 | A slot's bit is set exactly when the slot is with one free, on one stack, or in the detached chain, never in two; and it has been drained once per claim but the outstanding one |
| RemoteStack.ChainsAreIntact | hakozuna-hz10/src/hz10_remote_stack.c:148-156 | Following the links from any head, and from the owner's position, visits exactly the recorded slots, in order, whatever interleaves |
| RemoteStack.PushGoesOn | hakozuna-hz10/src/hz10_remote_stack.c:134-156 | The next step of a push publishes the slot on top of its stripe or brings it nearer to that |
| RemoteStack.FinishesAlone | hakozuna-hz10/src/hz10_remote_stack.c:134-156 | From every state a run can reach, four steps of a thread alone publish the slot it has claimed: no other thread can hold it up for long |
| RemoteDrain.Stripes.DrainNode | hakozuna-hz10/src/hz10_remote_stack.c:186-209 | Takes exactly one node off the detached chain |
| RemoteDrain.Stripes.DrainStacks | hakozuna-hz10/bench/hz10_remote_rmw_microbench.c:144-163 | The drain ends whatever other threads do and counts each slot it drains; alone, it drains every claimed slot and leaves no bit set |
| RemoteDrain.SlicesPartition | hakozuna-hz10/bench/hz10_remote_rmw_microbench.c:247-254 | Every slot belongs to exactly one worker's slice, even when the division leaves a rest |
| RemoteDrain.WorkersOnly | hakozuna-hz10/bench/hz10_remote_rmw_microbench.c:121-139 | While only workers run, no claim fails if each slot is claimed at most once |
| RemoteDrain.PushingIsNeverSeen | hakozuna-hz10/bench/hz10_remote_rmw_microbench.c:89-139 | The microbench counts a failed claim and pushes the node all the same; where each slot is claimed once its runs are the same runs |
| RemoteDrain.PushingTwiceLoops | hakozuna-hz10/bench/hz10_remote_rmw_microbench.c:89-139 | Where a slot is claimed twice it does: a run after which the failed claim is counted and the slot's link leads back to itself |
| RemoteDrain.Round | hakozuna-hz10/bench/hz10_remote_rmw_microbench.c:179-196 | After a round in which each slot is claimed once, in any interleaving, nothing failed and the owner drains all slots |
| RemoteRefinement.ClaimIsClaim | hakozuna-hz10/src/hz10_remote_stack.c:121-129 | Setting the claim bit is the protocol's claim |
| RemoteRefinement.SwingIsPublish | hakozuna-hz10/src/hz10_remote_stack.c:148-156 | The compare-exchange that links the slot is the protocol's publish, and is enabled there |
| RemoteRefinement.ExchangeIsDrain | hakozuna-hz10/src/hz10_remote_stack.c:185 | The exchange of a stripe is the protocol's drain of that stripe |
| RemoteRefinement.OtherWordsAreInvisible | hakozuna-hz10/src/hz10_remote_stack.c:148-209 | Head loads, link stores, failed swings and the owner's walk change nothing that the protocol sees |
| RemoteRefinement.StepIsSeen | hakozuna-hz10/src/hz10_public_entry.c:623-634 | Every step of words, notes, owner and other pages is an enabled protocol event or none, and the page keeps reflecting its words |
| RemoteRefinement.WordsRefineProtocol | hakozuna-hz10/src/hz10_public_entry.c:623-634 | Every interleaving at word level is a run of the protocol, so all that holds of its runs holds of the memory |
| RemoteRefinement.StartsReflected | hakozuna-hz10/src/hz10_freelist_page.c:254-285 | Clear words reflect any page that no remote free is inside |
| RemoteRefinement.EventIsPossible | hakozuna-hz10/src/hz10_remote_stack.c:101-156 | And the other way: every claim, note, allocation, local free and outside event that the protocol enables is a step of the words and the owner |
| RemoteRefinement.PublishesAlone | hakozuna-hz10/src/hz10_remote_stack.c:134-156 | A noted remote free that runs alone takes at most four steps, and the protocol sees exactly its publish |
| RemoteRefinement.OwnerGoesOn | hakozuna-hz10/src/hz10_remote_stack.c:169-215 | The owner's walk can always take its next step |
| RemoteRefinement.ExchangeCountsTheChain | hakozuna-hz10/src/hz10_remote_stack.c:185-213 | The free count added at the exchange is the number of nodes the owner then walks |
| TicketInbox.LapAheadBlocks | hakozuna-hz10/bench/hz10_public_entry_inbox.h:72-76 | With two cells or more, the cell of a ticket more than a lap ahead always shows an older ticket |
| TicketInbox.StepInv | hakozuna-hz10/bench/hz10_public_entry_inbox.h:68-110 | For every ticket of the lap the cell shows t or t + 1, no undelivered item is overwritten, every unfilled ticket has one holder |
| TicketInbox.InboxIsFifo | hakozuna-hz10/bench/hz10_public_entry_inbox.h:68-110 | What has been delivered is, on every run, a prefix of what was pushed in ticket order |
| TicketInbox.WaitEndsIff | hakozuna-hz10/bench/hz10_public_entry_inbox.h:72-76 | A waiting producer gets through exactly when its ticket is within a lap of the consumer |
| TicketInbox.OldestTicketMoves | hakozuna-hz10/bench/hz10_public_entry_inbox.h:70-80 | While something is undelivered, its cell is ready or its producer can step |
| TicketInbox.DrainIsComplete | hakozuna-hz10/bench/hz10_public_entry_inbox.h:94-99 | Once all pushes have returned, a drain that stops has delivered everything |
| TicketInbox.OneCellOverwrites | hakozuna-hz10/bench/hz10_public_entry_inbox.h:34-41 | With one cell a second push overwrites the first item: a run that delivers 8 for the ticket that pushed 7 |
| TicketInbox.FifoIff | hakozuna-hz10/bench/hz10_public_entry_inbox.h:34-41 | The inbox is a FIFO on all runs if and only if it has at least two cells |
| TicketInbox.BenchHasTwoCells | hakozuna-hz10/bench/hz10_public_entry_bench.c:743-747 | Whatever the capacity option, iterations and threads, an inbox that a worker can push to has at least two cells |
| TicketInbox.BenchCapacity | hakozuna-hz10/bench/hz10_public_entry_bench.c:743-747 | An option of at most 1024 gives 1024 cells, a larger one at least that many and less than twice as many, and none more cells than there can be pushes |
| TicketInbox.BenchInboxIsFifo | hakozuna-hz10/bench/hz10_public_entry_bench.c:552-555 | So the inboxes of the bench are FIFOs on every run it can take |
| TicketInbox.NextPowerOfTwo | hakozuna-hz10/bench/hz10_public_entry_inbox.h:26-32 | In 64 bits, the smallest power of two that is enough; at least two exactly if at least two were asked for |
| TicketInbox.RoundsUpIff | hakozuna-hz10/bench/hz10_public_entry_inbox.h:28-30 | The doubling loop can end exactly for values up to 2^63 |
| RingIndex.MaskIsCell | hakozuna-hz10/bench/hz10_public_entry_inbox.h:72 | Masking with capacity - 1 is the remainder, for every power of two |
| RingExit.RingIsModular | bench/bench_matrix_malloc.c:143-144 | The successor and predecessor are the source's remainders |
| RingExit.StoringKeeps | bench/bench_matrix_malloc.c:104-112 | The cell written by a push is never one that still holds an item |
| RingExit.StepInv | bench/bench_matrix_malloc.c:104-205 | Every step keeps every object in exactly one place and every index and counter in step |
| RingExit.NeverFreedTwice | bench/bench_matrix_malloc.c:123-131 | No object is freed twice, in any interleaving |
| RingExit.LeavesNothingBehind | bench/bench_matrix_malloc.c:182-201 | A thread that left found its predecessor past its last push and its inbox empty, and both stay so |
| RingExit.AllExited | bench/bench_matrix_malloc.c:182-205 | When all threads have left, every allocation was freed exactly once, every inbox is empty, and the drained objects sum to the enqueued ones |
| RingProgress.NeverLocksUp | bench/bench_matrix_malloc.c:182-205 | Whatever has happened, and whatever malloc and the random choices give from then on, some schedule brings every thread to leave: no full inbox, no cycle of full inboxes and no thread that left early can lock the ring up |
| RingProgress.EveryIterationHandsOver | bench/bench_matrix_malloc.c:182-205 | If malloc never fails and nothing is kept, each thread that has left has handed over one object for each iteration |
| PublicBench.DestinationIsAnother | hakozuna-hz10/bench/hz10_public_entry_bench.c:509-512 | The receiver is never the sender |
| PublicBench.EveryOtherIsChosen | hakozuna-hz10/bench/hz10_public_entry_bench.c:509-512 | Every other thread can be the receiver |
| PublicBench.NeverFull | hakozuna-hz10/bench/hz10_public_entry_bench.c:552-555 | No mutex inbox is ever full: pushes to it are bounded by the other threads' iterations |
| PublicBench.NothingIsDropped | hakozuna-hz10/bench/hz10_public_entry_inbox.h:83-87 | The branch that drops an object is never taken, and the drain after the second barrier finds nothing |
| PublicBench.BarriersHold | hakozuna-hz10/bench/hz10_public_entry_bench.c:519-522 | A thread drains after the first barrier only when all have reached it, and after the second only when all have drained once |
| PublicBench.AllFreedAtTheEnd | hakozuna-hz10/bench/hz10_public_entry_bench.c:519-522 | When all threads have finished, every inbox is empty and every object was freed exactly once |
| PublicBench.EveryRunFinishes | hakozuna-hz10/bench/hz10_public_entry_bench.c:519-522 | No run is longer than 4 * iterations + 4 steps a thread, and none stops before all threads have finished, whatever the draws and the schedule |
| SpinBench.StepInv | hakozuna-hz10/bench/hz10_public_entry_bench.c:491-522 | With ticket inboxes every step keeps each object in one place, each inbox in order, and its pushers and its owner's drain in step with the workers |
| SpinBench.FreedAtMostOnce | hakozuna-hz10/bench/hz10_public_entry_inbox.h:92-110 | No object is freed twice, on any run |
| SpinBench.BarriersHold | hakozuna-hz10/bench/hz10_public_entry_bench.c:519-522 | A thread drains after the first barrier only when all have reached it, and after the second only when all have drained once |
| SpinBench.AllFreedAtTheEnd | hakozuna-hz10/bench/hz10_public_entry_bench.c:519-522 | When all workers have finished, every ticket inbox has delivered everything pushed to it in ticket order and every object was freed exactly once |
| SpinBench.LoadIsSmall | hakozuna-hz10/bench/hz10_public_entry_bench.c:552-554 | What is sent to one inbox is bounded by the other workers' iterations |
| SpinBench.DefaultNeverWaits | hakozuna-hz10/bench/hz10_public_entry_bench.c:552-555 | Where an inbox has room for all iterations of the other workers no push ever waits; the capacity that the bench computes for itself is more than that |
| SpinBench.MutualWaitIsForever | hakozuna-hz10/bench/hz10_public_entry_inbox.h:72-76 | Two workers that wait for room in each other's inboxes never take another step |
| SpinBench.BarrierWaitIsForever | hakozuna-hz10/bench/hz10_public_entry_bench.c:505-522 | A worker that waits for room with one that has reached the first barrier waits there for ever, on every continuation |
| SpinProgress.EveryRunFinishes | hakozuna-hz10/bench/hz10_public_entry_bench.c:491-522 | No run is longer than 30 * iterations + 20 steps a worker; and where the iterations of the other workers do not exceed the capacity, none stops before all workers have finished, whatever the draws and the schedule |
| SpinWaiting.CanWaitForEver | hakozuna-hz10/bench/hz10_public_entry_bench.c:743-747 | Wherever the iterations of the other workers exceed the capacity, a run on which no worker keeps an object leads a worker into such a wait: from there it has no step on any continuation |
| SpinWaiting.StopsIff | hakozuna-hz10/bench/hz10_public_entry_inbox.h:72-76 | For two cells or more and at least one worker: some run leads a worker into a wait that no continuation ends if and only if the share of remote frees is not 0 and iterations * (workers - 1) exceeds the capacity |
| SpinWaiting.BenchStopsIff | hakozuna-hz10/bench/hz10_public_entry_bench.c:743-747 | The same on the bench's own arguments, all sizes included: it can stop if and only if the share of remote frees is not 0, a capacity option is given, and what that rounds up to is less than iterations * (workers - 1) |
| SpinWaiting.SmallestThatStops | hakozuna-hz10/bench/hz10_public_entry_bench.c:743-747 | At the smallest capacity, 1024, two workers can stop exactly from 1025 iterations on |
| SpinWaiting.CanWaitForEachOther | hakozuna-hz10/bench/hz10_public_entry_inbox.h:72-76 | For every capacity of two or more, a run of three workers into a wait of two of them for room in each other's inboxes |
| ReadyBench.SafeModesAreSafe | hakozuna-hz10/bench/hz10_retired_ready_bench.c:114-176 | With the done flag or the ready stack the producer never touches a destroyed page; and because the bench notes after publishing, no popped page is a false positive |
| ReadyBench.UnguardedTouch | hakozuna-hz10/bench/hz10_retired_ready_bench.c:213-217 | For any number of slots, a run without flag and stack in which the producer reads the owner token of a destroyed page |
| ReadyBench.SafeIff | hakozuna-hz10/bench/hz10_retired_ready_bench.c:104-176 | The producer can touch a destroyed page if and only if the page is polled and the owner does not wait for the flag |
| ReadyBench.CanBeDestroyed | hakozuna-hz10/bench/hz10_retired_ready_bench.c:104-176 | From every state that a run in a safe mode can reach, some schedule lets the producer finish and the owner destroy the page |
| ReadyBench.MissesAreCounted | hakozuna-hz10/bench/hz10_retired_ready_bench.c:114-176 | Every check that finds the page not idle is counted, in every mode |
| Routing.ClassifyIsExact | hakozuna-hz10/bench/hz10_pagemap_route_bench.c:74-112 | VALID with slot i if and only if slot i starts at the address, the start is aligned and the generation matches or is ANY |
| Routing.ClassifyAlignedIsExact | hakozuna-hz10/bench/hz10_pagemap_route_bench.c:74-112 | With slot sizes that are multiples of the minimum alignment the alignment condition drops out |
| Routing.ClassifyMeans | hakozuna-hz10/src/hz10_pagemap.c:202-246 | Every answer means what it says: VALID with the slot that starts there, past the slots, not aligned, between slots, or of another generation |
| Routing.MeaningIsUnique | hakozuna-hz10/src/hz10_pagemap.c:202-246 | No two answers mean the same, so an answer is given exactly when its meaning holds |
| Routing.SlotsAreApart | hakozuna-hz10/src/hz10_freelist_page.c:196-217 | Slots do not overlap |
| RouteTable.HashIsMasked | hakozuna-hz10/bench/hz10_pagemap_route_bench.c:42-45 | The masked 64-bit product is the hash modulo the capacity |
| RouteTable.ProbeReachesAll | hakozuna-hz10/bench/hz10_pagemap_route_bench.c:50-51 | The probe sequence of any base visits every cell |
| RouteTable.Overwrite | hakozuna-hz10/bench/hz10_pagemap_route_bench.c:52-58 | Re-registering keeps probing gapless and updates just that key of the map |
| RouteTable.Insert | hakozuna-hz10/bench/hz10_pagemap_route_bench.c:59-65 | So does filling the first empty cell of the probe sequence |
| RouteTable.Table.Register | hakozuna-hz10/bench/hz10_pagemap_route_bench.c:47-68 | Refines a map update: the next 32-bit generation for a known base, generation 1 for a new one, failure and no change exactly when the table is full and the base unknown |
| RouteTable.Table.Lookup | hakozuna-hz10/bench/hz10_pagemap_route_bench.c:114-138 | MISS exactly if the address's quantum is not in the map; otherwise the answer means exactly what the registered page makes of the address: which slot, or why none |
| PageMap.KeyIsQuantum | hakozuna-hz10/src/hz10_pagemap.h:168-178 | The two radix indices together are the quantum's number modulo 2^31, so the number itself below 2^47 |
| PageMap.Map.Register | hakozuna-hz10/src/hz10_pagemap.c:31-89 | Accepts exactly the documented arguments, as long as the leaf is there or can be had, bumps the generation and stores base, shape, owner tag and flags; changes no other record |
| PageMap.Map.Release | hakozuna-hz10/src/hz10_pagemap.c:102-133 | Removes a present record and keeps its base, generation, tag and flags |
| PageMap.Map.FastIsSlow | hakozuna-hz10/src/hz10_pagemap.h:185-234 | The trimmed local route answers exactly for the addresses the full route calls VALID on unflagged pages, and with the same owner, size and generation |
| PageMap.Map.RouteIsExact | hakozuna-hz10/src/hz10_pagemap.c:167-247 | For every 64-bit address: VALID with slot i if and only if its own quantum is registered and classifies it so; an address that only shares the 31 radix bits is never taken for another |
| PageMap.Map.RouteMeans | hakozuna-hz10/src/hz10_pagemap.c:167-247 | For every 64-bit address: MISS at the root exactly for null or without a leaf, MISS at the leaf exactly if nothing is registered there, and otherwise the answer means exactly what the registered page makes of the address |
| PageMap.OneSlotOrMany | hakozuna-hz10/src/hz10_pagemap.c:215-246 | The one-slot shortcut and the general path give the same classification |
| PageMap.GenerationAfter | hakozuna-hz10/src/hz10_pagemap.c:70-75 | After any registrations and removals of a quantum, of whatever shapes, the generation has moved on by the number of registrations, modulo 2^32 |
| PageMap.StalePointerIsRejectedUnlessWrapped | hakozuna-hz10/src/hz10_pagemap.c:125-128 | A pointer from an older registration validates again if and only if the 32-bit generation has gone all the way round and the new shape has a slot there, whatever was registered and removed in between |
| FreelistPage.Page.constructor | hakozuna-hz10/src/hz10_freelist_page.c:196-217 | A new page has all slots free; with bump nothing is chained, without it the chain visits slot 0, 1, ... in order |
| FreelistPage.Page.InitChain | hakozuna-hz10/src/hz10_freelist_page.c:208-216 | The chain laid down backward is the ascending one |
| FreelistPage.Page.CapacityIsFreeCount | hakozuna-hz10/src/hz10_freelist_page.h:406-417 | The pointer test for capacity agrees with the free count |
| FreelistPage.Page.IdleIsAllFree | hakozuna-hz10/src/hz10_freelist_page.c:205 | The free count equals the slot count exactly when every slot is free |
| FreelistPage.Page.Alloc | hakozuna-hz10/src/hz10_freelist_page.h:375-404 | Hands out a free slot and only that one, the last one freed first; null exactly when none is free |
| FreelistPage.Page.Free | hakozuna-hz10/src/hz10_freelist_page.h:421-427 | Makes exactly that slot free again, first in line |
| FreelistPage.Page.FreeThenAlloc | hakozuna-hz10/src/hz10_freelist_page.h:375-427 | Allocating right after a free returns the same slot and restores the page |
| FreelistPage.HandedOutIsValid | hakozuna-hz10/src/hz10_pagemap.c:243-246 | Every pointer a page hands out classifies as VALID, as its own slot |
| PagePool.Pool.TryAcquire | hakozuna-hz10/src/hz10_page_pool.c:26-49 | Takes the newest quantum, or none; the account of cached, reused and purged quanta stays balanced |
| PagePool.Pool.Release | hakozuna-hz10/src/hz10_page_pool.c:51-71 | Caches exactly when below the cap, never exceeds the cap, and keeps the list newest first |
| PagePool.Pool.PurgeIdle | hakozuna-hz10/src/hz10_page_pool.c:73-129 | Removes exactly the quanta idle for at least the limit, keeps the others in order, and counts them; with a forward clock the kept ones are a prefix |
| PagePool.UnlinkIdle | hakozuna-hz10/src/hz10_page_pool.c:84-110 | The in-place unlinking relinks the kept nodes and lists the others, last first |
| PagePool.SweepIsACut | hakozuna-hz10/src/hz10_page_pool.c:88-110 | With a forward clock the idle quanta are a suffix of the list |
| MemoryProtocol.StepInv | hakozuna-hz10/src/hz10_freelist_page.c:60-326 | Every critical section of every thread keeps each quantum with one owner, each descriptor in one use and the page map in agreement with the live pages |
| MemoryProtocol.RunInv | hakozuna-hz10/src/hz10_freelist_page.c:60-326 | So it is after any run of any threads, wrapped generations included |
| MemoryProtocol.OneOwner | hakozuna-hz10/src/hz10_freelist_page.c:118-326 | On every run a quantum is mapped exactly when it is in the reservoir, under a live page, in the pool or in one thread's hand, and then in one of these only; no two pages share one |
| MemoryProtocol.OneUse | hakozuna-hz10/src/hz10_freelist_page.c:60-104 | Every descriptor ever made is free, in one thread's hand or under one live page, and in one of these only |
| MemoryProtocol.ListedIsLiveIff | hakozuna-hz10/src/hz10_pagemap.c:70-86 | A registered quantum is under a live page exactly when its generation is not 0; its owner tag then names that page's descriptor |
| MemoryProtocol.OrphanedIff | hakozuna-hz10/src/hz10_freelist_page.c:266-281 | A step leaves a quantum registered that no page is over exactly if it registers it with the last generation used up, or it was so before and is not registered again |
| MemoryProtocol.OrphanIff | hakozuna-hz10/src/hz10_freelist_page.c:266-281 | On every run: no pooled, unmapped, reserved or handed-over quantum is registered, except exactly those whose last registration wrapped |
| MemoryProtocol.OthersLeave | hakozuna-hz10/src/hz10_freelist_page.c:225-286 | No step of another thread touches the quanta, descriptors and pages that a thread holds |
| MemoryProtocol.OwnHeld | hakozuna-hz10/src/hz10_freelist_page.c:60-326 | What each step does to the hands of the thread that takes it |
| MemoryProtocol.UnmapAll | hakozuna-hz10/src/hz10_page_pool.c:116-122 | Giving back quanta one by one unmaps exactly those |
| MemoryProtocol.PoolIsCapped | hakozuna-hz10/src/hz10_page_pool.c:51-71 | On every run the pool holds no more than the largest cap it has had |
| MemoryProtocol.PooledIsDated | hakozuna-hz10/src/hz10_page_pool.c:51-71 | On every run each pooled quantum has the time at which it was given to the pool |
| MemoryProtocol.PurgeGivesBack | hakozuna-hz10/src/hz10_page_pool.c:73-129 | A purge with the unmappings that follow takes exactly the quanta that have been in the pool for at least the limit out of it and away from the process |
| GenerationWrap.ReachesGeneration | hakozuna-hz10/src/hz10_pagemap.c:70-75 | Every generation up to 2^32 - 1 is reached, by a run that creates a page and destroys it through the pool |
| GenerationWrap.PooledYetListedReachably | hakozuna-hz10/src/hz10_freelist_page.c:270-276 | And so is a state in which a quantum in the pool is still registered |
| PageLifecycle.Substrate.RefillSlab | hakozuna-hz10/src/hz10_freelist_page.c:60-79 | Links exactly the new descriptors into the free list, the last one first |
| PageLifecycle.Substrate.PopNode | hakozuna-hz10/src/hz10_freelist_page.c:81-93 | Takes exactly the first descriptor off the free list |
| PageLifecycle.Substrate.PushNode | hakozuna-hz10/src/hz10_freelist_page.c:95-104 | Links the descriptor in front of the free list |
| PageLifecycle.Substrate.RegisterPage | hakozuna-hz10/src/hz10_freelist_page.c:266-281 | Fails on a quantum in hand exactly if no leaf could be had, and then none covers it, or the generation wraps |
| PageLifecycle.Substrate.UnlinkIdleBases | hakozuna-hz10/src/hz10_page_pool.c:73-114 | Takes out of the pool exactly the quanta idle for at least the limit when it is locked |
| PageLifecycle.Substrate.Others | hakozuna-hz10/src/hz10_freelist_page.c:106-191 | Any steps of any other threads keep the state a run of the protocol and leave what the thread holds |
| PageLifecycle.Substrate.Reserve | hakozuna-hz10/src/hz10_freelist_page.c:118-189 | Hands out one quantum that nobody had, after a refill if one was needed; or none, and nothing changes hands: at a step of the run the reservoir was used up and the system refused |
| PageLifecycle.Substrate.AllocNode | hakozuna-hz10/src/hz10_freelist_page.c:81-93 | Hands out one descriptor that nobody had, after a new slab if one was needed; or none, and nothing changes hands: at a step of the run the list was empty and there was no memory for a slab |
| PageLifecycle.Substrate.TryRegister | hakozuna-hz10/src/hz10_freelist_page.c:266-281 | With other threads at work: a page is made, or nothing changes hands and the run shows why: no leaf, or a wrapped generation |
| PageLifecycle.Substrate.Install | hakozuna-hz10/src/hz10_freelist_page.c:246-285 | Descriptor first, then registration; if either fails the thread holds exactly what it held before, and the run shows why |
| PageLifecycle.Substrate.CreateCommon | hakozuna-hz10/src/hz10_freelist_page.c:225-286 | Every failure restores the thread's holdings: no descriptor or quantum is lost, a given quantum stays; a page is over the given quantum or over one the thread did not have. Each failure has its reason: the shape, or at a step of the run a used-up reservoir, no descriptor, no leaf, or a wrapped generation |
| PageLifecycle.Substrate.PooledCreate | hakozuna-hz10/src/hz10_pooled_page.c:4-26 | First takes the newest quantum out of the pool: it takes none exactly if it peeked too early or the pool was empty at that step of the run. A page is then over that quantum; if none can be made, for a reason the run shows, the quantum goes back to the pool or, if that is full, is unmapped |
| PageLifecycle.Substrate.GiveToPool | hakozuna-hz10/src/hz10_page_pool.c:51-71 | The quantum is cached, or unmapped because the pool was at its cap, and nothing else changes hands |
| PageLifecycle.Substrate.DestroyReclaimBase | hakozuna-hz10/src/hz10_freelist_page.c:304-319 | The page is unregistered, its descriptor freed, its quantum in the caller's hand, whatever other threads do in between |
| PageLifecycle.Substrate.Destroy | hakozuna-hz10/src/hz10_freelist_page.c:321-326 | The thread's steps are unregister, free the descriptor, unmap, and it holds what it held but the page |
| PageLifecycle.Substrate.PooledDestroy | hakozuna-hz10/src/hz10_pooled_page.c:28-33 | The same with the quantum given to the pool, or unmapped if the pool was at its cap |
| PageLifecycle.Substrate.Purge | hakozuna-hz10/src/hz10_page_pool.c:73-129 | The thread's steps are one purge, with its clock and limit, and one unmapping for each quantum purged; these are exactly the quanta that had been in the pool for at least the limit when it was locked; the thread holds afterwards what it held before |
| Regions.CutIsExact | hakozuna-hz10/src/hz10_freelist_page.c:158-175 | Head trim, payload and tail trim are the whole reservation, without overflow, and the payload is aligned |
| Regions.TrimLeavesPayload | hakozuna-hz10/src/hz10_large_alloc.c:22-40 | After the trims exactly the payload stays mapped |
| Regions.HandoutsAreDisjoint | hakozuna-hz10/src/hz10_freelist_page.c:127-147 | Sequential handouts are aligned, disjoint and inside the region |
| Regions.RoundedBounds | hakozuna-hz10/src/hz10_large_alloc.c:44-55 | The rounded size is the next multiple of the quantum, and is refused exactly for 0 and for what does not fit 32 bits |
| Regions.LargeBlocks.Alloc | hakozuna-hz10/src/hz10_large_alloc.c:43-69 | Maps exactly the aligned payload and registers it so that its base routes VALID and the local fast route leaves it alone, or leaves the mappings as they were, and the records too unless the generation wrapped; says exactly when it fails |
| Regions.LargeBlocks.AllocThenFree | hakozuna-hz10/src/hz10_large_alloc.c:43-77 | Freeing with the registered size unmaps exactly what the allocation kept, and the address stops routing |


## Left out

- Weak memory ordering: steps are sequentially consistent, and the release and acquire pairs the source relies on are not modelled.
- The ready stack: the protocol takes the pop's and the push's compare-exchange loops on the ready stack as one step each (there is one popper), and `push_count`, a diagnostic written after the push, is not a step.
- Publishing a slot of another page, freeing a slot twice, or freeing through a wrong pointer: the classification, local-marker and claim-bit rejections that turn these away before the protocol starts are modelled only in `Routing` and `RemoteStack`; the marker word inside free slots, and its collision with user data, is not modelled.
- ClassPages.ClassPageList.FindWithCapacity: the scan and depth statistics, compiled in by a switch, are left out; move-to-front is a constant of the class.
- ClassPages.ClassPageList.Harvest: a page with some but not all objects back is promoted unless a note lowers its flag first; that a note has done so shows in the flag only, not in who did it.
- Adoption of a dead owner's pages and the quiescent flush of a thread cache: separate mechanisms of the public entry.
- The public entry's active-cache fast path and size classes: they add no new state to the page lists.
- PageLifecycle.Substrate.Reserve: takes a handout and a refill as one step each, the handout directly after the refill of the same call, and claims nothing about finer interleavings of cursor and end.
- PageLifecycle.Substrate.RefillSlab: the descriptors per slab are a parameter; the pending-bit and stripe storage inside a descriptor is not modelled.
- PageLifecycle.Substrate.Others: another thread may take the steps in any order, not only in the program's; a page is destroyed only by the thread that created it, so that pages adopted from a dead owner are left out.
- MemoryProtocol.StepInv: the system maps regions below 2^47 only, as for user memory; a record's fields are written in one step.
- PageMap.Map.Register: a leaf is a finite map with zeros everywhere else; a torn read of a record that is being rewritten is not modelled.
- PagePool.Pool.PurgeIdle: the source updates the purge counter in a second critical section, here it is updated with the list.
- RouteTable.Table.Register: the base must not be null, as for every caller; with null the source would bump the generation of an empty cell.
- TicketInbox.BenchHasTwoCells: iterations times threads plus one is computed without overflow.
- RingProgress.NeverLocksUp: is about some schedule; under an unfair one a thread that waits for its predecessor can go on checking for ever. The phase-separated variant of the bench only fills and empties arrays.
- PublicBench.AllFreedAtTheEnd: allocations succeed; a worker whose allocation fails returns before the barriers and the others wait. The same goes for `SpinBench`.
- SpinWaiting.StopsIff: a share of remote frees between 0 and 100 percent allows every sequence of draws; which sequences the bench's generator can produce is not part of the model.
- The polled list of the retired-ready bench: the same list, cursor and removal as in `PageLists` and `ClassPages`, without the handshake.
- RemoteDrain.Round: the modes of the microbench that skip the claim bits or the stacks are left out.
- Windows builds, where reservations are aligned and cannot be trimmed, and the platform layer.
- Timing, memory sampling, reports, argument parsing and counters that no operation reads.
