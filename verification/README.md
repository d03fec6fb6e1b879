# Verified model of the serving simulator

The simulator replays recorded agent sessions against a model of an LLM serving stack. This project models its core and
proves what the rest of the simulator relies on.

**The tiered KV prefix cache** (`KvTree`, `Expiry`, `KvCache`, `KvHolds`, `Hits`). `KvTree` is the cache as a value: a
forest of segments with parents, children, pins, tiers and access times, and the laws of evicting, splitting, pinning,
loading and inserting; `Expiry` says what a lookup drops because it was idle for too long. `KvCache.Cache` is the
engine's arena: node slots, a free list, doubly linked sibling lists and one LRU set per memory tier, updated in
place, every method proved against the value. `KvHolds` states what holders of pins rely on, `Hits` what an admission
does with a hit on a whole prompt.

**The continuous-batching scheduler of one rank** (`Requests`, `Turns`, `Planning`, `Scheduler`, `Guarantees`). `Requests`
holds the ledger of a request in each of its states, the exact pin count and the queues; `Turns` says who stands before
whom; `Planning` states what a planning pass may do; `Scheduler.Rank` admits, loads, batches, preempts, commits and
completes; `Guarantees` says what follows over every run, and `Leak` drives one to a wrong token count.

**The event clock** (`Timers`): versioned timers in a second heap under a lazily applied offset, against one queue with
eagerly shifted times.

**Session graphs** (`AgentChains`, `Overlap`, `SessionGraph`, `TraceBuild`, `TraceCycles`, `Arrivals`, `Lanes`): detecting
agent chains in a flat request list by prefix extension and splicing, grouping workers by overlap, building the dependency
graph from the recorded requests, two files whose graphs have a cycle, what a lane plays of a trace it joins in the middle,
and counting predecessors down and ready times on while a graph is played. `Engine` puts a play and the ranks together.

**The index against the prefix-hit counter** (`Reach`, `SeenSets`, `IndexSteps`, `PrefixHits`): how far a lookup reaches,
the blocks of a play as sets, how the tree's steps change what can be found, and requests replayed one at a time.

**Companions**: interpolation in measured latency tables (`Interpolation`) and the inverse solver (`Solver`). `Commons` holds
what several modules share.

Tokens are integers, times are reals. Scopes taken from the code: prompts are whole blocks, at least one of them; outputs
have at least one token; block ids are chained (an equal id means an equal position and an equal prefix). Pools are
aggregated, with any number of memory tiers.

## Findings

- A preemption refunds `alloc` less the tokens of the victim's own segment. When that segment was split since insertion,
  the upper part stays in the tree although it was refunded. `Requests.PreemptLeak` gives the exact condition,
  `Leak.LeakRun` drives a rank from an empty cache to such a preemption, and `Guarantees.Simulate` counts the leak over
  whole runs.
- A prompt that is found whole is admitted with one block less than the seen-set walk counts. `PrefixHits.Replay` gives
  the index's reports for every order of requests, and shows that they equal the walk's if and only if every request brings
  an unseen block; `PrefixHits.ReplayTwice` shows where they part for any prompt served twice.
- A lookup does not always find the longest resident prefix. Two siblings can begin with the same block, and a lookup follows
  the first of them only. `PrefixHits.ShortCovers` takes any prompt and any proper prefix of it: served in this order from an
  empty cache, a third lookup of the prompt ends at the prefix although all of the prompt is resident. `Reach.MissesExactly`
  says when this happens: if and only if a longer prefix lies behind a child that an earlier sibling shadows; in a tree where
  no two siblings begin alike it never does (`Reach.RadixDeepest`). `SeenSets.FindableIff` gives the condition in terms of the
  requests served.
- A chain that is joined by the main request it was spawned from, or by an earlier one, closes a cycle, and a session with
  a cycle of ordinary requests never ends (`Arrivals.RoundWaits`). `TraceBuild.BuildTrace` proves that the graph of a file is
  acyclic exactly when there is no such chain, and that there is none when later requests of the file start no earlier and the
  main chain keeps the file's order, as it does when all requests carry block ids and take time. `TraceCycles.LateTrace` is a
  file out of time order with such a chain, `TraceCycles.BareTrace` one in time order in which a request carries no block ids.
- `Req::due` is not reached by the global idle shift, so a later per-tree cap works with times that are too late.
  `Timers.CapExact` proves that the play's timers move by the intended cut if and only if no shift came since any of them was
  set, and that one is postponed if and only if that shift exceeds the cut. `Timers.CapPostpones` is a run on which it does.

## Model

| member | source | states |
|---|---|---|
| `KvCache.Cache.EnsureFree` | `src/engine/engine.cpp:893-902` | terminates through the mutual recursion with eviction, and answers true exactly when `need`, plus what is allocated off the tree at that tier, plus the tokens of tier segments that are pinned or lie above a pinned segment of the same tier, fit the capacity; success is also exactly that there is room afterwards; nothing is evicted when there was room already; victims go oldest first; no faster tier and no pinned segment is touched |
| `KvCache.Cache.Evict` | `src/engine/engine.cpp:904-924` | the segment moves one tier down exactly when the next tier exists and can be made to hold it, else it goes with everything below it; all other segments of its tier stay; off-tree accounts of every tier are kept |
| `KvCache.Cache.Demote` | `src/engine/engine.cpp:910-916` | moving a segment down keeps every tier within capacity and changes no off-tree account |
| `KvTree.StuckMeansCannotFree` | `src/engine/engine.cpp:893-902` | when nothing of a tier is evictable and the need does not fit, the tier is full of pinned segments and their ancestors |
| `KvTree.FreeMeansCanFree` | `src/engine/engine.cpp:893-902` | whenever the need fits after evictions, it fits beside the locked part alone |
| `KvTree.StuckIsLocked` | `src/engine/engine.cpp:669-673` | a tier without evictable segments consists of pinned segments and ancestors of pinned ones |
| `KvTree.EvictableSubtree` | `src/engine/engine.cpp:669-673` | below an evictable segment nothing is pinned and everything lies in a slower tier, so no eviction frees a pinned segment |
| `KvTree.OldestStep` | `src/engine/engine.cpp:893-902` | evicting the least key among the evictable keeps the eviction order, over the whole call: what goes was used no later than any evictable segment that stays |
| `KvTree.ShedsTrans` | `src/engine/engine.cpp:893-924` | what several evictions shed is again what an eviction may shed |
| `KvTree.RemoveInv` | `src/engine/engine.cpp:736-741` | removing a subtree keeps parent links, tier order, pin closure and block slices |
| `KvTree.SetTierInv` | `src/engine/engine.cpp:910-916` | moving an unpinned segment down keeps the tree invariants when its children are no faster |
| `KvTree.LiftInv` | `src/engine/engine.cpp:976-985` | moving a pinned segment up to the device tier below a device-tier parent keeps the tree invariants |
| `KvTree.SplitInv` | `src/engine/engine.cpp:753-775` | splitting a segment keeps the tree invariants |
| `KvTree.SplitTok` | `src/engine/engine.cpp:753-775` | a split changes the token count of no tier |
| `KvTree.LinkFrontInv` | `src/engine/engine.cpp:699-708` | linking a new child keeps the tree invariants |
| `KvTree.AddPinsInv` | `src/engine/engine.cpp:824-840` | pinning and unpinning keep the tree invariants, ancestors first |
| `KvTree.AncLinear` | `src/engine/engine.cpp:685-697` | the ancestors of one segment lie on one path |
| `KvCache.EraseStands` | `src/engine/engine.cpp:663-667` | taking a node out of its LRU set together with its flag, or putting it back, leaves the rest of the arena as it should be |
| `KvCache.ChangeStands` | `src/engine/engine.cpp:675-683` | a change to one node in step with its segment keeps links, LRU membership and keys exact |
| `KvCache.ChainWithout` | `src/engine/engine.cpp:710-716` | a doubly linked sibling list without one member is again a sibling list |
| `KvCache.PrunedStands` | `src/engine/engine.cpp:710-741` | after unlinking and freeing a subtree the arena stands for the smaller tree, all links and LRU sets exact |
| `KvCache.LinkedStands` | `src/engine/engine.cpp:699-708` | after linking at the front the arena stands for the larger tree |
| `KvCache.SplitStands` | `src/engine/engine.cpp:753-775` | after the split surgery on sibling, parent and child links the arena stands for the split tree |
| `KvCache.Cache.constructor` | `src/engine/engine.cpp:111-122` | an empty cache satisfies all invariants |
| `KvCache.Cache.NewNode` | `src/engine/engine.cpp:638-647` | the slot freed last, or a new one at the end when none is free; no live node uses it and it is blank |
| `KvCache.Cache.IsEvictable` | `src/engine/engine.cpp:669-673` | decides exactly: unpinned, not a root, every child in a slower tier |
| `KvCache.Cache.LruUpdate` | `src/engine/engine.cpp:675-683` | afterwards the node is in its LRU set under its current key if and only if it is evictable |
| `KvCache.Cache.Touch` | `src/engine/engine.cpp:685-697` | refreshes the access times of the path upwards as far as it is stale, LRU keys moving along |
| `KvTree.TouchIs` | `src/engine/engine.cpp:685-697` | an access sets the time of use of exactly those segments on the path from which, down to the segment itself, everything was used before; nothing else changes |
| `KvCache.Cache.Unlink` | `src/engine/engine.cpp:710-716` | the neighbours and the parent bypass the node |
| `KvCache.Cache.LinkChild` | `src/engine/engine.cpp:699-708` | the tree with the child in front; its tokens appear at its tier and nowhere else |
| `KvCache.Cache.SubtreePinned` | `src/engine/engine.cpp:718-722` | true exactly when some segment of the subtree is pinned |
| `KvCache.Cache.FreeSubtree` | `src/engine/engine.cpp:724-734` | frees exactly the subtree and takes exactly its tokens off the counters of their tiers |
| `KvCache.Cache.RemoveSubtree` | `src/engine/engine.cpp:736-741` | the tree without the subtree, off-tree accounts unchanged |
| `KvCache.Cache.DropNodeUnaccounted` | `src/engine/engine.cpp:744-751` | a pinned leaf leaves the tree while no counter changes |
| `KvCache.Cache.RootOf` | `src/engine/engine.cpp:649-661` | the play has one root; a missing one is created pinned only on request |
| `KvCache.Cache.Split` | `src/engine/engine.cpp:753-775` | the tree with the segment split, up taking its place with the same time of use; no token moves between tiers |
| `KvCache.Cache.FindChild` | `src/engine/engine.cpp:785-803` | the first child in list order that begins with the wanted block, or none does; of the children it came by exactly those are gone, with all below them, that hold blocks, were idle for longer than the limit and have nothing pinned below them; neither the child found nor one before it is expired |
| `Expiry.ScanDrop` | `src/engine/engine.cpp:788-793` | dropping an expired child keeps the account of the walk over the child list: exactly the expired ones so far are gone |
| `Expiry.FreshPathStays` | `src/engine/engine.cpp:785-803` | a path none of whose segments is expired, nor an earlier sibling of one, stays so while the lookup drops what is expired further down |
| `KvTree.FirstPathStays` | `src/engine/engine.cpp:785-803` | a path along first children stays one while subtrees elsewhere expire and children below its end come and go |
| `KvTree.MatchLength` | `src/engine/engine.cpp:804-809` | the binary search over a segment finds the linear common-prefix length |
| `KvTree.ChainedPrefix` | `src/trace/trace.h:50` | with chained ids, agreeing on one block means agreeing on every block before it |
| `KvCache.Cache.StepDown` | `src/engine/engine.cpp:783-814` | one round of the lookup loop: no child continues the match, or the first child in list order that begins with the next block continues it for exactly the reported blocks; expired children passed on the way are gone |
| `KvCache.Cache.Descend` | `src/engine/engine.cpp:777-816` | from the root down, along the first child in list order at every step: the match is a true prefix of the query, nothing below the segment it ends in continues it, and no segment on the path is expired |
| `KvCache.Cache.Lookup` | `src/engine/engine.cpp:777-821` | the reported path is a true prefix of the query that follows the first child with the next block at every step and ends where none has it; `lower` says whether it leaves the device tier; with a limit, every segment on the path was used within it or has a pinned segment in its subtree, and so has every earlier sibling; only idle subtrees were lost and only access times changed |
| `KvCache.Cache.PinHit` | `src/engine/engine.cpp:824-834` | the pinned segment ends exactly where the match ended: a new root, the segment, or its split-off upper part |
| `KvCache.Cache.Unpin` | `src/engine/engine.cpp:836-840` | gives back one pin, or does nothing for no node |
| `KvCache.Cache.InsertChild` | `src/engine/engine.cpp:842-867` | generated tokens on the parent become a child of their own with its time of use, then the new blocks are linked, used now; device-tier tokens grow by exactly the new blocks |
| `KvCache.Cache.LoadHit` | `src/engine/engine.cpp:949-986` | a tier load succeeds exactly when the lower-tier tokens of the protected path fit; the tokens counted before making room equal those moved after it; success leaves one extra pin on the hit alone, failure gives every pin back and leaves no room for the path |
| `KvTree.PathTok` | `src/engine/engine.cpp:963-964` | the lower-tier tokens of a path add up segment by segment |
| `KvHolds.ShedsFirm` | `src/engine/engine.cpp:893-924` | evictions and expiry leave every pinned segment with its place, depth and the blocks above it |
| `KvHolds.SplitFirm` | `src/engine/engine.cpp:753-775` | a split leaves every pinned segment its depth, its blocks and its pins |
| `KvHolds.TailChildFirm` | `src/engine/engine.cpp:843-855` | moving generated tokens into a child of their own disturbs no pin holder |
| `KvHolds.InsertFirm` | `src/engine/engine.cpp:842-867` | inserting the rest of a prompt below its pinned prefix puts the whole prompt on the path to the new segment and disturbs no pin holder |
| `KvHolds.HitPinnedStep` | `src/engine/engine.cpp:824-834` | a pinned hit adds exactly one pin, and the request stands on exactly the matched prefix |
| `KvHolds.LoadedStep` | `src/engine/engine.cpp:949-997` | a completed load adds exactly one pin, on the hit, whose whole path is on the device tier |
| `KvHolds.BlockedStep` | `src/engine/engine.cpp:965-970` | a blocked load has no effect but evictions |
| `Requests.ReqsFirm` | `src/engine/engine.cpp:744-867` | a step of the tree that keeps pinned segments in place keeps every request's ledger and its segments in order |
| `Requests.PinsStep` | `src/engine/engine.cpp:836-840` | a single pin or unpin changes the holders of one segment by one and nothing else |
| `Requests.SplitOffIs` | `src/engine/engine.cpp:1029-1053` | a preempted request's own segment holds at most what it was charged for, and all of it exactly when no split took part of it away |
| `Requests.OwnPortion` | `src/engine/engine.cpp:1032-1044` | a request's own segment holds its inserted tokens, less what a split moved to the segment above |
| `Requests.DropStep` | `src/engine/engine.cpp:1039-1041` | dropping a preempted request's unshared leaf leaves every other holder alone |
| `Requests.PreemptWorld` | `src/engine/engine.cpp:1029-1053` | after a preemption the victim holds nothing and every other request is as before |
| `Requests.PreemptLeak` | `src/engine/engine.cpp:1032-1044` | a preemption refunds too much exactly when the victim's own segment was split since insertion |
| `Requests.LoadingWorld` | `src/engine/engine.cpp:949-997` | a request that starts a load holds the segment being loaded; no off-tree token changes |
| `Requests.AdmittedWorld` | `src/engine/engine.cpp:999-1020` | an admitted request computes on exactly the blocks it pinned and has tokens left to prefill |
| `Requests.ScheduledWorld` | `src/engine/engine.cpp:1023-1027` | a request in the batch is charged once for its tokens |
| `Requests.ChunkWorld` | `src/engine/engine.cpp:1272-1276` | a prefill chunk moves from left to past |
| `Requests.GrownWorld` | `src/engine/engine.cpp:1277-1299` | a finished prefill turns exactly the prompt tokens it was charged for into tree tokens and decodes on with `past = isl + generated - 1` |
| `Requests.StepWorld` | `src/engine/engine.cpp:1300-1315` | a decode step keeps the tokens it produced and returns those speculated in vain |
| `Requests.CommittedMoved` | `src/engine/engine.cpp:1272-1315` | in numbers, for each entry of a pass: a chunk moves from left to past and the last one yields the first token; a decode step yields one token and the accepted drafts, `min(generated + 1 + accepted, osl)`, and `past` and `itl` grow by as much |
| `Requests.FinishedWorld` | `src/engine/engine.cpp:1376-1386` | a completed request turns its output into tree tokens, gives back both pins, and its account closes |
| `Requests.PromptSeg` | `src/engine/engine.cpp:1290-1292` | the inserted segment holds exactly the prompt blocks beyond the cached prefix |
| `Requests.BatchRuns` | `src/engine/engine.cpp:1096-1263` | every batch entry names a running request |
| `Requests.JudgedPlanned` | `src/engine/engine.cpp:1204-1210` | scheduling keeps: only requests too big for the device tier have failed, and none of those runs |
| `Requests.JudgedCommitted` | `src/engine/engine.cpp:1265-1323` | committing a pass keeps that judgement |
| `Requests.QueuesPreempt` | `src/engine/engine.cpp:1048-1052` | a preempted request moves from the running list to the front of the queue, every list staying exact |
| `Requests.QueuesPop` | `src/engine/engine.cpp:1204-1222` | the head of the queue moves to exactly the list its new state names |
| `Requests.QueuesSettle` | `src/engine/engine.cpp:1317-1322` | dropping done requests from the running list makes it exact again |
| `Scheduler.Rank.constructor` | `src/engine/engine.cpp:76-122` | a fresh rank satisfies all invariants |
| `Scheduler.Rank.Preempt` | `src/engine/engine.cpp:1029-1053` | the victim goes to the front of the queue with its account reset; the refund exceeds what left the device tier exactly when the victim's own segment was split |
| `Scheduler.Rank.FindPrefix` | `src/engine/engine.cpp:777-821` | a lookup on a running rank keeps every invariant and gives the match along first children, in the tree that is left when idle subtrees are gone |
| `Scheduler.Rank.FindHit` | `src/engine/engine.cpp:934-948` | the admission uses that match, less its last block when it is the whole prompt; after the back-off `lower` speaks of the segment that is left |
| `Hits.GiveLastBack` | `src/engine/engine.cpp:936-948` | a prompt found whole is used without its last block: the match ends one block earlier, in the parent if the segment matched by that block alone, and `lower` is judged anew |
| `Scheduler.Rank.LoadInto` | `src/engine/engine.cpp:949-997` | a load starts with at least one block to move, or is refused because its path does not fit the device tier |
| `Scheduler.Rank.PinCached` | `src/engine/engine.cpp:999-1020` | the pin is taken on the segment that ends where the match ended and room is sought beside it, exactly as far as the locked part allows; without room the pin goes back and only evictions remain |
| `Scheduler.Rank.StartLoad` | `src/engine/engine.cpp:949-997` | a started load takes the head of the queue to the loading requests and moves at least one block; a refused one changes no request |
| `Scheduler.Rank.PinInto` | `src/engine/engine.cpp:999-1020` | an admission without load has room for its first chunk beyond the hit, or leaves no pin behind and that chunk does not fit |
| `Scheduler.Rank.PinHead` | `src/engine/engine.cpp:999-1020` | the head of the queue is pinned on its hit and runs, or is blocked because its first chunk beyond the hit finds no room even after evictions |
| `Scheduler.Rank.AdmitHead` | `src/engine/engine.cpp:930-1021` | Ok, Blocked or Loading each with its whole effect on queue, running list and loads; an admitted request starts from the match of its lookup (less one block if it is whole); a blocked one was looked up, and the load of its hit or else its first chunk beyond the hit does not fit; a load moves at least one block |
| `Scheduler.Rank.ChunkFor` | `src/engine/engine.cpp:1117-1119` | a chunk is bounded by what is left, the chunk size and the budget; an unchunked prompt is taken whole, over budget only alone |
| `Scheduler.Rank.MakeRoom` | `src/engine/engine.cpp:893-902` | room on the device tier exactly when the need fits beside the charges off the tree and the locked part; nothing moves when there was room |
| `Scheduler.Rank.AddPrefillChunk` | `src/engine/engine.cpp:1115-1130` | the request is charged for one chunk and joins the batch within the caps, or there was no room for it (or its whole prompt must wait for a pass of its own) |
| `Scheduler.Rank.LastDecode` | `src/engine/engine.cpp:1147-1151` | finds the last decoding request after position i, if there is one |
| `Scheduler.Rank.GiveWay` | `src/engine/engine.cpp:1145-1159` | the youngest decoding request after position i is preempted, or there is none |
| `Scheduler.Rank.RoomForDecode` | `src/engine/engine.cpp:1145-1159` | preempts only requests that would be served later, the youngest decoding one first, and fails only when none of them decodes any more and there is still no room |
| `Scheduler.Rank.AddDecodes` | `src/engine/engine.cpp:1131-1165` | every decoding request has its place in the batch, in running order, unless the caps or the memory end; the first running request is never preempted |
| `Scheduler.Rank.ContinuePrefills` | `src/engine/engine.cpp:1199-1203` | chunks for running prefills in running order; an empty batch means none of them is prefilling or there was no room for a next chunk; with none prefilling nothing changes |
| `Scheduler.Rank.RejectHead` | `src/engine/engine.cpp:1206-1210` | only a request that can never fit fails, and it leaves the queue |
| `Scheduler.Rank.TakeIn` | `src/engine/engine.cpp:1204-1222` | the head of the queue starts a load, joins the running list and the batch with its first chunk, or is refused; with a cache and chunked prompts the new state is the one its lookup, pin and first chunk lead to |
| `Scheduler.Rank.AdmitNext` | `src/engine/engine.cpp:1204-1222` | one turn of the admission loop takes the head off the queue and, if it is admitted, puts it at the end of the running list; it stops because the head does not fit or an unchunked prompt needs its own pass |
| `Scheduler.Rank.AdmitPrefills` | `src/engine/engine.cpp:1204-1222` | the queue loses requests at its front only and those that now run came from there in that order; it stops for four reasons only: nobody waits, the pass is full, the head does not fit, an unchunked prompt needs its own pass |
| `Scheduler.Rank.FillBatch` | `src/engine/engine.cpp:1225-1251` | one attempt keeps the caps, mixes prefill and decode only where configured, counts the batches since the last prefill, and leaves an idle rank empty only if nobody waits or the head was looked up and neither the load of its hit nor its first chunk beyond it fits; who keeps running or waiting keeps its place in line, but for decoding requests that fall back |
| `Scheduler.Rank.StepBack` | `src/engine/engine.cpp:1253-1258` | when an attempt comes to nothing the last running request goes back to the front of the queue, and nobody changes places |
| `Turns.FallsBack` | `src/engine/engine.cpp:1145-1159` | preempting the last decoding request moves it behind those that run, and no two others change places |
| `Turns.ServedInTurn` | `src/engine/engine.cpp:1204-1222` | admitting from the front of the queue to the end of the running list changes nobody's place in line |
| `Turns.FirstStays` | `src/engine/engine.cpp:1253-1258` | if the first in line is not one of those that may fall back, it is first again |
| `Scheduler.Rank.FormBatch` | `src/engine/engine.cpp:1096-1263` | terminates; the batch is within the caps (but for a lone unchunked prefill); it is left empty only if a load is in flight, or nothing runs and what the hit of the head needs does not fit; running list and queue together keep their order, the oldest running request is never displaced, and the batch is that of one attempt after a number of failed ones, each of which sent the last running request back |
| `Planning.OldestKept` | `src/engine/engine.cpp:1253-1258` | when a batch is planned the request that has run longest is still the first to run |
| `Planning.ContinuesStays` | `src/engine/engine.cpp:1199-1203` | a running prefill that got its next chunk or found no room for it is not put in doubt by what the rest of the pass does |
| `Planning.StillInOrder` | `src/engine/engine.cpp:1317-1322` | who still runs after a pass is who ran before and is not done, in the same order |
| `Scheduler.Rank.StartPass` | `src/engine/engine.cpp:1055-1094` | an idle rank of a free worker starts a pass exactly when its batch is not empty; a busy one, or one held back by a transfer, is left alone |
| `Scheduler.Rank.CommitEntry` | `src/engine/engine.cpp:1272-1316` | an entry has exactly its effect on its own request |
| `Scheduler.Rank.StepDecode` | `src/engine/engine.cpp:1301-1315` | in numbers: `generated` grows to `min(generated + 1 + accepted, osl)`, `past` and `itl` by as much, and the rest of what was charged for the step goes back |
| `Scheduler.Rank.Finish` | `src/engine/engine.cpp:1355-1386` | with a prefix cache the output stays cached on the segment that ends the prompt and no counter changes; without one the whole account goes back |
| `Scheduler.Rank.DropDone` | `src/engine/engine.cpp:1317-1322` | the running list without done requests, order kept |
| `Scheduler.Rank.Commit` | `src/engine/engine.cpp:1265-1323` | every entry takes effect once, on its own request, and nothing else changes; in numbers, a decode entry ends at `min(generated + 1 + accepted, osl)` with `past` and `itl` grown by as much, a chunk moves from left to past; done requests leave the running list, the rest keeps its order |
| `Scheduler.Rank.LoadDone` | `src/engine/engine.cpp:1451-1458` | the load's pin goes back and the request queues in front |
| `Scheduler.Rank.Enqueue` | `src/engine/engine.cpp:527-563` | a ready request joins the end of the queue |
| `Scheduler.Rank.Route` | `src/engine/engine.cpp:777-821` | a lookup by the router changes access times, drops what is expired and nothing else |
| `Scheduler.Rank.Handle` | `src/engine/engine.cpp:1437-1481` | an event that applies (a ready request, a finished load, the end of a pass, a finished write-back) takes exactly its own effect; on a free worker scheduling follows, which produces no output, fails only what can never fit, keeps requests in line and the oldest running one first, and leaves the rank busy, waiting for a load or out of room; one that does not apply changes no request |
| `Scheduler.Rank.Run` | `src/engine/engine.cpp:177-262` | every sequence of events at any times, with the worker free or held back at each, keeps all invariants: exact pins, exact queues, exact token counters up to the counted leak |
| `Guarantees.HeldPathStays` | `src/engine/engine.cpp:669-673` | every segment on the way to one that an active request holds is live, on the device tier and not evictable |
| `Guarantees.PromptResident` | `src/engine/engine.cpp:1290-1292` | the whole prompt of a decoding request is in the tree, block for block |
| `Guarantees.QueuesExact` | `src/engine/engine.cpp:111-122` | a request is in the one list its state names, once, and in no other |
| `Guarantees.ExactCount` | `src/engine/engine.cpp:724-751` | as long as no preemption met a split segment, the device tier counts the tree tokens plus the charges off the tree, and every lower tier exactly its tree tokens |
| `Guarantees.RunSettles` | `src/engine/engine.cpp:298-306` | over every run a request that finished has its full output, `osl - 1` inter-token gaps and `alloc = isl - hit + osl - 1`, and it failed exactly when it can never fit |
| `Guarantees.Simulate` | `src/engine/engine.cpp:177-262` | every run from an empty cache: all accounts settle, every tier stays within capacity, and used tokens equal tree tokens plus off-tree charges, less the leak of split preemptions; without a leak every counter is exact |
| `Leak.LeakRun` | `src/engine/engine.cpp:1029-1053` | from an empty cache, three arrivals and the ends of two passes lead to a preemption whose victim was split, and the device tier counts less than what is in the tree and charged beside it |
| `Leak.SplitterTry` | `src/engine/engine.cpp:999-1020` | an admission that shares one block with a running request splits that request's segment, finds no room and is blocked: the split stays |
| `Leak.VictimGoes` | `src/engine/engine.cpp:1145-1159` | the decode step that then needs room preempts the youngest request, whose own segment no longer holds what it was charged for |
| `Leak.NoRoomLeft` | `src/engine/engine.cpp:893-902` | once the segment is split the device tier is full of pinned segments and their ancestors, pin returned or not |
| `Timers.Clock.PushEvent` | `src/engine/engine.cpp:385` | the queue gains the event under the next number |
| `Timers.Clock.constructor` | `src/engine/engine.cpp:177-211` | a fresh clock has no entries and no shift |
| `Timers.Clock.PushTimer` | `src/engine/engine.cpp:386-394` | a timer replaces the one its request had, set at the present offset; nothing else moves |
| `Timers.Clock.SkipIdle` | `src/engine/engine.cpp:250-258` | one addition to the offset equals moving every timer of the queue; afterwards the next timer is at most the allowed gap away, and no sooner than that if anything moved |
| `Timers.Clock.CapTree` | `src/engine/engine.cpp:398-415` | the play's due times move by the same cut and the earliest comes to the cap; the timers are set anew at the cut due times, so each moves by the cut less whatever the idle shift grew since it was set, and no other entry changes |
| `Timers.CapMoves` | `src/engine/engine.cpp:398-415` | a capped timer moves by exactly the cut less the shift since it was set |
| `Timers.CapExact` | `src/engine/engine.cpp:398-415` | all timers of the play move by the cut if and only if no idle shift came since any of them was set; one is postponed if and only if the shift since it was set exceeds the cut |
| `Timers.CapPostpones` | `src/engine/engine.cpp:398-415` | a run from a fresh clock in which the cap moves a timer from 25 to 60 |
| `Timers.Clock.Earliest` | `src/engine/engine.cpp:226-235` | comparing the two heap tops finds the least entry of the merged queue |
| `Timers.Clock.DropTimer` | `src/engine/engine.cpp:236-242` | the earliest timer goes; if it is current its entry leaves the queue and the clock moves to it, and if it is stale the queue is the same |
| `Timers.Clock.Pop` | `src/engine/engine.cpp:212-249` | pops live entries in the (time, type, number) order of one queue with eagerly shifted timers; stale timers never surface and the clock never runs backwards |
| `Timers.QueueShift` | `src/engine/engine.cpp:250-258` | raising the offset shifts exactly the timers of the queue |
| `Timers.QueueTimer` | `src/engine/engine.cpp:386-394` | raising a version and pushing a timer replaces exactly one entry of the queue |
| `Timers.OneReady` | `src/engine/engine.cpp:237-242` | a request with a pending timer has exactly one live entry, any other none |
| `Arrivals.BuildGraph` | `src/engine/engine.cpp:308-334` | refuses empty traces and edges out of range, and only those; else every node's stretch lists its targets in order, each with the delay of its edge, no delay below zero |
| `Arrivals.PlaceEdge` | `src/engine/engine.cpp:320-325` | the cursor of a node writes into its own stretch and no other |
| `Arrivals.PlaceGap` | `src/engine/engine.cpp:320-326` | the delay of an edge goes to the same place as its target |
| `Arrivals.CountPredecessors` | `src/engine/engine.cpp:490-503` | `preds_left` is the number of edges from requests that are played, for requests that are neither primers nor skipped |
| `Arrivals.Play.constructor` | `src/engine/engine.cpp:433-525` | primers and requests without predecessors are released at once, no other; in terms of recorded starts, a primer and a warm request are due at once, any other when its recorded start comes round, and one behind a skipped request is ready no sooner |
| `Arrivals.Play.Arrive` | `src/engine/engine.cpp:527-546` | a released request that arrives is one more in flight |
| `Arrivals.Play.Idle` | `src/engine/engine.cpp:1416` | nothing is in flight exactly when everything that arrived is finished |
| `Arrivals.Play.Finish` | `src/engine/engine.cpp:1401-1421` | a completion releases exactly the requests whose last predecessor it was, each once, and they are due at their ready times: the least time that is no sooner than the base and than the end of each request waited for with its delay, or that end alone for a warm one; `remaining` and `in_flight` count down by one |
| `Arrivals.SinceDone` | `src/engine/engine.cpp:1407-1410` | when a request ends, walking its adjacency list moves the ready times on to the latest of the ends and delays over all edges |
| `Arrivals.SinceReady` | `src/engine/engine.cpp:1407-1410` | the ready time of a request is no sooner than the recorded gap after the end of each request it waited for (than that end for a warm one), and exactly then for one of them unless it was ready later from the start |
| `Arrivals.ReadyOnce` | `src/engine/engine.cpp:1407-1410` | this fixes the ready time |
| `Arrivals.SomeReleased` | `src/engine/engine.cpp:1401-1421` | on a graph without cycles some unfinished request is always released |
| `Arrivals.RoundStuck` | `src/engine/engine.cpp:1401-1421` | on a cycle of ordinary requests none is ever released |
| `Arrivals.PlayOut` | `src/engine/engine.cpp:433-525` | on a graph without cycles, whatever the order and the times of arrivals and completions, every request that is not skipped is played exactly once, and no other |
| `Arrivals.RoundWaits` | `src/engine/engine.cpp:1401-1421` | whatever arrives and finishes, a play with a cycle of ordinary requests never ends |
| `Arrivals.PlaySession` | `src/trace/weka_graph.cpp:535-597` | a session built from chains none of which is joined where it was spawned or before plays every request that is not skipped, once |
| `Arrivals.PlayFile` | `src/trace/weka_graph.cpp:535-597` | a file whose later requests start no earlier, carry block ids and take time plays every request that is not skipped, once |
| `Arrivals.StuckSession` | `src/engine/engine.cpp:1401-1421` | a session from a file in time order that never ends, whatever arrives and finishes |
| `Lanes.Snapshot` | `src/engine/engine.cpp:450-476` | of the requests before the snapshot exactly the last of each agent that goes on is played, as a primer; of those from it on, exactly the first `budget` in order of start are played without pauses |
| `Lanes.Join` | `src/engine/engine.cpp:433-525` | a session joined at a snapshot, from chains that are joined later than they are spawned, plays all that the snapshot leaves to play, once |
| `Engine.StaysPending` | `src/engine/engine.cpp:1437-1481` | no event at a rank but its own arrival makes a request leave its initial state |
| `Engine.Session.constructor` | `src/engine/engine.cpp:177-180` | with nobody arrived the play and its ranks agree |
| `Engine.Session.Collect` | `src/engine/engine.cpp:1401-1421` | requests done at a rank are told to the play; afterwards those done in the play are exactly those done at their ranks |
| `Engine.Session.Give` | `src/engine/engine.cpp:527-563` | a released request arrives at the rank it is routed to and at no other; play and ranks agree afterwards |
| `Engine.Session.Reached` | `src/engine/engine.cpp:1401-1421` | when a request is released, every request it waits for is done at the rank that had it |
| `Engine.Session.Run` | `src/engine/engine.cpp:177-262` | whatever the events at the ranks and the order of arrivals, each request is given to at most one rank, at most once, and after every request it waits for; events that apply take effect at their rank and no other |
| `Engine.Session.CountsBusy` | `src/engine/engine.cpp:1401-1416` | `in_flight` is the number of requests that some rank has and has not finished |
| `Engine.Session.NotStuck` | `src/engine/engine.cpp:1401-1421` | while a request is left in a graph without cycles, one can be given to a rank or a rank has one to finish |
| `AgentChains.CommonPrefix` | `src/trace/weka_graph.cpp:42-46` | the loop computes the longest common prefix |
| `AgentChains.SortByTime` | `src/trace/weka_graph.cpp:48-51` | a permutation in the order of start times, ties in file order |
| `AgentChains.FindExtensionTarget` | `src/trace/weka_graph.cpp:84-100` | the first chain with the longest tail that the request extends in blocks, model and time |
| `AgentChains.MaxLcpChain` | `src/trace/weka_graph.cpp:102-117` | the first chain sharing the deepest prefix, longer tails preferred |
| `AgentChains.Detector.Append` | `src/trace/weka_graph.cpp:125-135` | a request joins a chain, partition and links kept |
| `AgentChains.Detector.Classify` | `src/trace/weka_graph.cpp:137-168` | the request joins its best extension, or opens a chain that forks off its closest relative and is registered there, exactly as the cases say |
| `AgentChains.Detector.ClassifyAll` | `src/trace/weka_graph.cpp:258-259` | the chains are what classifying the requests one after the other leads to |
| `AgentChains.ElectContinuation` | `src/trace/weka_graph.cpp:171-200` | the best of the waiting chains that may go on from the request (common blocks, same model, not before it ended, within 3600 s or with half of its blocks): deepest fork, then earliest, then lowest index; none is missed |
| `AgentChains.EligibleIs` | `src/trace/weka_graph.cpp:171-187` | the test with the overlap ratio decides exactly that |
| `AgentChains.Detector.RekeyLeftoverForks` | `src/trace/weka_graph.cpp:202-217` | exactly the waiting chains that share blocks with the new end, but for the one spliced, wait there from now on, each as deep as it agrees with it; every other chain is as before |
| `AgentChains.Detector.Resolve` | `src/trace/weka_graph.cpp:221-224` | following aliases terminates, at an index no larger |
| `AgentChains.SplicePartition` | `src/trace/weka_graph.cpp:240-244` | a splice moves requests between chains without losing or doubling one |
| `AgentChains.SpliceGood` | `src/trace/weka_graph.cpp:240-246` | splicing an eligible later chain behind the end of an earlier one keeps all chain invariants and reopens nothing that was settled |
| `AgentChains.RekeyGood` | `src/trace/weka_graph.cpp:202-217` | re-keying keeps all chain invariants |
| `AgentChains.SpliceLeaves` | `src/trace/weka_graph.cpp:240-250` | a splice leaves no live chain waiting behind a request that it overtook |
| `AgentChains.Detector.TrySplice` | `src/trace/weka_graph.cpp:235-250` | the elected chain of those waiting is spliced and the rest re-keyed, or none is eligible |
| `AgentChains.Detector.ResolveSeams` | `src/trace/weka_graph.cpp:219-252` | terminates; each splice takes the best waiting chain at the least request index where one can be spliced, into a chain with a smaller index; afterwards nothing is left to splice, and no live chain waits behind a request that ended its chain before and does not now |
| `AgentChains.SewnUnique` | `src/trace/weka_graph.cpp:219-252` | the seams can be sewn in one way only: two complete sewings of the same chains are the same |
| `AgentChains.GrownOpened` | `src/trace/weka_graph.cpp:254-260` | the first chain opens with the first request |
| `AgentChains.OneOpening` | `src/trace/weka_graph.cpp:84-100` | all block-bearing requests of a chain open with the same block and address the same model |
| `AgentChains.ResolveParents` | `src/trace/weka_graph.cpp:261-269` | every fork names the live chain its parent ended up in |
| `AgentChains.ParentsHome` | `src/trace/weka_graph.cpp:261-269` | the parent of a surviving chain is the chain that holds the request it forked off |
| `AgentChains.DetectAgentChains` | `src/trace/weka_graph.cpp:254-278` | the requests in order of start, classification, exhaustive splicing and parent resolution; surviving chains partition the requests, consecutive block-bearing requests share model and opening block and do not overlap beyond 1e-6 s, none is left waiting behind a request that a splice overtook, each fork names the chain that holds the request it forked off, and the main chain is the first one and opens with the earliest request |
| `AgentChains.WorkersOf` | `src/trace/weka_graph.cpp:271-272` | every surviving chain but the main one, once, in the order of their first requests |
| `Overlap.SortedOrder` | `src/trace/weka_graph.cpp:288-293` | candidates by start, then by file position |
| `Overlap.Find` | `src/trace/weka_graph.cpp:296-302` | path halving changes no root |
| `Overlap.JoinStep` | `src/trace/weka_graph.cpp:305-309` | joining only the earliest-ending active interval keeps trees equal to connected components |
| `Overlap.EarliestEnd` | `src/trace/weka_graph.cpp:303-309` | the active interval that ends first |
| `Overlap.Sweep` | `src/trace/weka_graph.cpp:294-309` | two intervals share a root exactly when a chain of overlaps connects them |
| `Overlap.OverlapComponents` | `src/trace/weka_graph.cpp:285-321` | the groups are the connected components of overlap, every candidate in exactly one, in index order |
| `SessionGraph.NoCycle` | `src/trace/weka_graph.cpp:486-530` | edges that only lead to later places close no cycle |
| `SessionGraph.PrecedingPos` | `src/trace/weka_graph.cpp:504-509` | the last position of the main chain before the given file index |
| `SessionGraph.JoinPos` | `src/trace/weka_graph.cpp:511-520` | the first request in file order, after the given index, that starts once the chain has ended |
| `SessionGraph.Builder.AddRequest` | `src/trace/weka_graph.cpp:469-484` | the request carries its agent, its place in the file (the marker's for a subagent), its start and what is copied from the record, and owns exactly its slice of the block ids; earlier ones are untouched |
| `SessionGraph.Builder.AddEdge` | `src/trace/weka_graph.cpp:37-40` | the edge joins requests emitted before; its delay is what lies between the end of service of the one and the start of the other, nothing if that is past |
| `SessionGraph.Builder.AddChain` | `src/trace/weka_graph.cpp:492-502` | the chain is emitted in order under one agent and marker, with its sequential edges |
| `SessionGraph.LineExact` | `src/trace/weka_graph.cpp:498-502` | the sequential edges of a chain lead from each request to the next, and there are no others |
| `SessionGraph.Builder.Attach` | `src/trace/weka_graph.cpp:522-530` | a background edge into the chain, or a spawn edge into its first and a join edge from its last request |
| `SessionGraph.CycleMade` | `src/trace/weka_graph.cpp:522-530` | a chain joined where it was spawned or before closes a cycle with the main chain |
| `SessionGraph.Hang` | `src/trace/weka_graph.cpp:522-530` | a chain hung between two main requests keeps the graph acyclic, or closes a cycle, exactly by where it joins |
| `SessionGraph.OrderedHooks` | `src/trace/weka_graph.cpp:585-595` | with the main chain in file order, only a flat chain that precedes it in the file and had ended by its start can close a cycle |
| `SessionGraph.BuildTrace` | `src/trace/weka_graph.cpp:535-597` | every main request, every request of a kept subagent and every flat request is emitted once, with its own slice, agent, place in the file and start; the edges are exactly those of the chains and their hooks, endpoints valid, each with the pause between the end of service of the one and the start of the other for a delay; the graph is acyclic if and only if no hung chain is joined where it was spawned or before |
| `TraceBuild.SplitOffPreamble` | `src/trace/weka_graph.cpp:368-389` | the preamble is split off exactly when the earliest request opens unlike any other and is short or shares no block; the rest keeps its order |
| `TraceBuild.DetectAll` | `src/trace/weka_graph.cpp:429-436` | main chain and others hold the requests, each once; the preamble is back in the main chain by time; the main chain opens with the earliest request |
| `TraceBuild.ExpandSubagent` | `src/trace/weka_graph.cpp:418-466` | a subagent's chains hold its requests, each once, times before its start counted from there; its end is its start and duration if one is recorded, else the last end of a request |
| `TraceBuild.SubEnds` | `src/trace/weka_graph.cpp:455-466` | the end of a subagent is its start and duration if one is recorded, else the latest end among its requests |
| `TraceBuild.SplitUp` | `src/trace/weka_graph.cpp:541-563` | without workers the file is the main chain, else the detector's main chain and its workers |
| `TraceBuild.SolidInTime` | `src/trace/weka_graph.cpp:84-100` | a linked chain of requests that carry blocks and take time stands in the order of their starts |
| `TraceBuild.FlatsInOrder` | `src/trace/weka_graph.cpp:585-595` | when later requests of the file start no earlier, no flat chain precedes the main chain in the file |
| `TraceBuild.BuildTrace` | `src/trace/weka_graph.cpp:535-597` | from the raw requests: main chain and flat chains are a permutation of the file's requests, subagents of theirs, and each is emitted once with its place in the file and what is recorded of it; where service times are not negative the recorded end of a request and the delay of an edge make up the recorded start of the next; acyclic if and only if no chain is joined where it was spawned or before; and always when later requests start no earlier and the main chain keeps the file's order, as it does when all carry block ids and take time |
| `TraceBuild.DelaysPause` | `src/trace/weka_graph.cpp:486-488` | delays of the graph are the pauses between the recorded ends and starts |
| `TraceCycles.LateTrace` | `src/trace/weka_graph.cpp:585-595` | a file of three requests out of time order whose graph, given edge by edge, has a cycle: its flat chain is spawned from and joined by the first main request |
| `TraceCycles.BareTrace` | `src/trace/weka_graph.cpp:240-250` | a file of four requests in time order, each taking time, whose graph, given edge by edge, has a cycle: a request without block ids stays in the first chain and a later-spliced one comes behind it |
| `SeenSets.CountPrefixHits` | `src/trace/trace.cpp:151-184` | hits and totals of the seen-set walk |
| `Reach.FirstCover` | `src/engine/engine.cpp:777-821` | paths along first children that agree on a prefix run through the same segments |
| `Reach.ReachesFirst` | `src/engine/engine.cpp:777-821` | no resident path along first children agrees with the prompt further than the match of a lookup |
| `Reach.RadixDeepest` | `src/engine/engine.cpp:777-821` | in a tree with one way to every block the match of a lookup is the deepest resident prefix |
| `Reach.MissesExactly` | `src/engine/engine.cpp:777-821` | a longer prefix of the prompt is resident if and only if one lies behind a child that an earlier sibling shadows |
| `Reach.FoundUnique` | `src/engine/engine.cpp:777-821` | the tree determines the answer of a lookup |
| `IndexSteps.LookupShown` | `src/engine/engine.cpp:777-821` | a lookup finds exactly the leading blocks of the prompt that lie on paths along first children, twins or not |
| `IndexSteps.SplitShow` | `src/engine/engine.cpp:753-775` | a split changes nothing about which blocks can be found |
| `IndexSteps.LinkFirst` | `src/engine/engine.cpp:699-708` | a child linked in front takes from view exactly what lies behind siblings that begin like it |
| `IndexSteps.PromptShows` | `src/engine/engine.cpp:842-867` | inserting the rest of a prompt makes all its blocks findable; if its last block was findable before, what came behind it no longer is, and nothing else changes |
| `IndexSteps.PreparedStores` | `src/engine/engine.cpp:824-834` | preparing the pinned segment keeps every stored prompt and what can be found |
| `IndexSteps.InsertStores` | `src/engine/engine.cpp:842-867` | inserting the rest of a prompt stores it, keeps the others, and what can be found is what the sets say |
| `SeenSets.ReportsBelow` | `src/trace/trace.cpp:174-182` | whatever the order, the index never counts a block that was not seen, and never a whole prompt |
| `SeenSets.AgreeExactly` | `src/trace/trace.cpp:174-182` | index and walk agree on a whole list if and only if every request brings an unseen block |
| `SeenSets.FindableIff` | `src/engine/engine.cpp:934-940` | a block can be found if and only if some request brought it and no prompt found whole since then hides it |
| `SeenSets.ShortHides` | `src/engine/engine.cpp:934-940` | a prompt, a proper prefix of it, and the prompt again: the walk counts it whole, the index only that prefix |
| `PrefixHits.Admit` | `src/engine/engine.cpp:934-948` | the hit of a lone admission is the number of leading blocks that can be found, less one for a prompt found whole |
| `PrefixHits.Serve` | `src/engine/engine.cpp:930-1021` | a request served alone reports that hit, leaves its prompt in the index and changes what can be found as the sets say; it costs at most its tokens, returns its pins, and afterwards no token is counted off the tree that was not before |
| `PrefixHits.Replay` | `src/trace/trace.cpp:151-184` | served one at a time with room for all, in any order, the radix index reports exactly what the set of findable blocks gives; the reports equal the seen-set walk if and only if every request brings an unseen block |
| `PrefixHits.ReplayTwice` | `src/engine/engine.cpp:934-940` | any prompt served twice is counted whole by the walk the second time and reported with one block less by the index |
| `PrefixHits.ShortCovers` | `src/engine/engine.cpp:934-940` | from an empty cache, a prompt and then a proper prefix of it: a lookup of the prompt ends at the prefix while the whole prompt is resident behind a shadowed child |
| `Interpolation.BuildTrie` | `src/perfdata/measured.cpp:185-193` | a lookup by keys gives the first latency with those keys, and nothing else is stored |
| `Interpolation.InsertStores` | `src/perfdata/measured.cpp:187-191` | what a row adds to the table, and all that it adds |
| `Interpolation.ExactAtGrid` | `src/perfdata/measured.cpp:119-132` | at a measured point the stored value comes back unblended |
| `Interpolation.Bounded` | `src/perfdata/measured.cpp:173-183` | on any table the interpolated value lies between the least and the greatest measured one |
| `Interpolation.ResolvesInRange` | `src/perfdata/measured.cpp:133-135` | on a full grid a query resolves exactly when every axis is in range |
| `Interpolation.OutIsNamed` | `src/perfdata/measured.cpp:133-135` | a query that does not resolve on a full grid is told the first axis it leaves, and on which side |
| `Interpolation.Reproduces` | `src/perfdata/measured.cpp:173-183` | a table that holds a product of one law per axis, linear in it or, for a curved axis, the square of a linear one, is reproduced exactly at every query |
| `Interpolation.StepLaw` | `src/perfdata/measured.cpp:173-183` | blending two grid values of such a law gives its value in between |
| `Interpolation.BelowResolves` | `src/perfdata/measured.cpp:173-183` | a table nowhere above another interpolates nowhere above it |
| `Interpolation.LinesRise` | `src/perfdata/measured.cpp:173-183` | rising line values interpolate to a value that rises with the query, across grid cells |
| `Interpolation.RisesResolves` | `src/perfdata/measured.cpp:119-183` | measured values that never fall along an axis of a full grid interpolate to values that never fall along it |
| `Solver.Next` | `src/solver/solver.cpp:91-97` | one step of the odometer is one step of the position, and it reports the roll-over |
| `Solver.RankUnique` | `src/solver/solver.cpp:91-97` | no two index vectors have the same position |
| `Solver.Walk` | `src/solver/solver.cpp:99-120` | every index vector of the grid exactly once |
| `Solver.NeighboursOf` | `src/solver/solver.cpp:114-119` | exactly the grid vectors one step away on one axis, and the vector itself |
| `Solver.Search.Run` | `src/solver/solver.cpp:62-80` | a point is evaluated once and a repeat finds its first evaluation; its metrics are those of one run or the average over the seeds, and its flag says whether they meet the targets |
| `Solver.Average` | `src/solver/solver.cpp:66-71` | the average of several runs holds every metric of any of them and no other, each the sum of its values over the number of runs |
| `Solver.Search.Probe` | `src/solver/solver.cpp:82` | a point outside the constraints is not run |
| `Solver.Search.EvaluateAll` | `src/solver/solver.cpp:99-123` | without a screen every grid node is decided and only points within the constraints are run |
| `Solver.Search.Pick` | `src/solver/solver.cpp:102-120` | the candidates are exactly the promising nodes; nodes outside the constraints are marked |
| `Solver.Search.EvaluateScreened` | `src/solver/solver.cpp:99-123` | with a screen the full model runs exactly on promising nodes within the constraints |
| `Solver.Search.HalfWay` | `src/solver/solver.cpp:158-169` | one probe half way keeps the half that still holds the boundary, the evaluation at its feasible end |
| `Solver.Search.Bisect` | `src/solver/solver.cpp:156-171` | at most 14 probes, all on the line between the two points and run only within the constraints; a feasible/infeasible bracket of at most 1e-4 of the range; the evaluation returned is its feasible end; with one boundary it encloses it |
| `Solver.TooSmall` | `src/solver/solver.cpp:156-171` | fourteen halvings shrink the bracket below the tolerance |
| `Solver.DominatesAt` | `src/solver/solver.cpp:236-243` | decides dominance |
| `Solver.Climb` | `src/solver/solver.cpp:244-256` | from a dominated point one climbs to an undominated one that dominates it too |
| `Solver.ParetoFront` | `src/solver/solver.cpp:230-257` | the front is exactly the undominated points, in order; every point left out is dominated by one of the front |
| `Solver.Best` | `src/solver/solver.cpp:219-229` | the first of the best feasible points |

## Left out

- Disaggregated pools: delivery, the decode pool and its transfers are not modelled; the rank is an aggregated one.
- Several ranks per worker and several workers: ranks are modelled one by one, so `unit` and `worker` fields disappear; how the router chooses among them is an input.
- Step pricing and transfer times: the end of a pass, a load or a write-back is an event at an arbitrary time, and whether a transfer still holds the worker back (`blocked_until`) is part of the event.
- Records, metrics, counters for reports, and notes on extrapolation.
- Random draws: the number of accepted drafts per decode step is any number up to the draft length.
- Warmup phase: its separate timer heap, the hand-off to profiling and the end event, after which timers are dropped.
- Timers.Clock.SkipIdle: the bound on the next live arrival is not stated, because the top of the heap may be a stale timer.
- KvCache.Cache.LiftPath: a load moves the path ancestors first instead of hit first, and refreshes LRU flags node by node; the tree after the load is the same.
- KvCache.Cache.PinPath: pins the path ancestors first instead of hit first; the pins taken are the same.
- KvCache.Cache.Lookup: integer widths of node indices and block counts are unbounded.
- SessionGraph.Builder.AddRequest: the table of agents (parent, kind, label, background flag) is not modelled.
- TraceBuild.BuildTrace: the kinds and names of chains (auxiliary, reduction, worker group) are not modelled; they do not change the graph.
- Overlap.OverlapComponents: the later filter on group size and the numbering of groups are not modelled.
- SeenSets.CountPrefixHits: takes the requests already sorted by time, file index, chain and position.
- Arrivals.Play.Finish: the start of the next play on the lane is not modelled.
- Arrivals.Play.constructor: the snapshot time is an input; the seeded draw of it between the earliest and latest start is not modelled.
- Engine.Session.Run: the session is one play on any number of ranks; several plays at once, the pipeline latency before a queue, and arrivals at their due times and no other are not modelled.
- PrefixHits.Admit: the admission of one request alone in the cache, without the room check, which the scheduler's admission has.
- Scheduler.Rank.Handle: the event that ends a run empties the timers and concerns no rank.
- Interpolation.RisesResolves: extrapolation beyond the grid, structural lookups by version or alias, and floating-point rounding are not modelled; the square root is any function with its defining property.
- Solver.Search.Bisect: coordinate scales and the axis sweep that calls it, and the sensitivity pass, are not modelled.
- YAML, JSON and Parquet loading, caches on disk, the command line and reports.
