# CacheSlide, modelled and proved

A Dafny model of CacheSlide's reuse of K/V rows: the slot map that redirects tokens
while they are read and written, the paged arena over it, the two-tier page store
and the commit protocol that populates it, the weighted cache adaptation and the
sparse layer loop it drives, the wait queue, and three algorithms of the
evaluation. `dafny verify dfyconfig.toml` checks everything.

## How it is built

Each stateful component has a state machine on values, whose steps are the code's
atomic blocks, and a class with the code's fields whose methods are proved to
make exactly those steps. Safety is proved once for every step and lifted to all
runs; the theorems are about runs. What each call answers, and where it leaves
things, is stated once more in terms of fields and outstanding calls alone
(Addressing, SlotOutcomes, PagedAdmission, PageOutcomes, WaitOutcomes,
AdaptationRuns, LayerRuns), without the functions that the methods compute.

| component | machine and algorithms | safety | theorems | class |
|---|---|---|---|---|
| slot map | Slide, SlotWrites | SlideSafety | SlideTheorems, SlotOutcomes | SlotMap |
| paged arena | Paged, PagedCalls, RowPacking | PagedSafety, PagedRuns | PagedTheorems, Addressing, PagedAdmission, PagedPrefill, PagedRelocation, PagedDecodes | PagedMemory, PagedStore, PagedSession |
| page store | Storage | StorageSafety | StorageTheorems, Directories, PageOutcomes | PageStore, PageSession |
| population | Commit | CommitSafety | CommitStore | CommitCalls |
| wait queue | Waiting | WaitingSafety | WaitingTheorems, WaitOutcomes | WaitCalls |
| adaptation | Adaptation | | AdaptationTheorems, AdaptationRuns | AdaptationCalls |
| layer loop | Plans, SparsePrefill | | LayerRuns | |
| positions, metrics, data | Contextual, Subsequences, Windows, Selection | | | |

## What is assumed

Slot map and arena.
- One step is one `with self._mutex` block. The blocks of different calls interleave
  freely; outstanding pins, guards, promotions, decodes and loads are records in the
  state, and counters may be any integer until they are proved to be counts.
- A load's done-callback is a step of its own. It may come after a waiter on the
  load has gone on; `WriteGrantedExactly` and `RelocateFirstIsDense` say exactly what
  that costs.
- All calls of one arena share its mutex, so one device write section of an arena is
  open at a time; promotions and readers outlive the call that started them.
- A device write may fail after any part of it. The rows it did not write are chosen
  freely; after the failure is reported it writes nothing more. The arena is then
  retired, and values are claimed only while it is open.
- `write_guard` is entered with slots that are mapped or below the allocation floor,
  as its docstring demands.
- One row stands for the packed K and V record of a token. The sidecar exists from
  construction; `SidecarWrittenFirst` is why its lazy allocation cannot be missed.
- A class method makes all of its device writes before it returns. The machine covers
  the interleavings in between, and `PagedRuns` shows that each call is one of them.

Page store and population.
- A process may end at any moment, also between the temporary file, its rename and the
  bookkeeping of one write, and between two evictions. What the directory holds then
  is what its operations had done, in their order. The lock and unfinished writes
  stay until somebody cleans them up, as the code demands; that clean-up is explicit
  in the theorems.
- A write that fails leaves no file. Which file operations fail is chosen freely, per
  key. Digests and file names are injective; keys are numbers in string order; the
  size of an encoded header is an argument.
- Loads and spills are two steps, submission and completion, with anything between; the
  completion of a spill is again two, the write and the end of its ticket.
- No two live requests populate one identity. `TwoLiveRequestsBreakThePromise` shows
  that this is needed. Forwards exclude each other, which the code enforces (a second
  `run` is refused), and releases come between them; leftovers of failed requests may
  be live beside them.

Adaptation and layer loop.
- Deviations, weights, cosines, layer outputs and pages are arbitrary inputs; checks
  for finite numbers fail freely. A K or V row is one of its entries, which all share
  the row's weight; reals are exact.
- The layer loop uses the specification functions that the adaptation class is
  proved against.

Algorithms.
- Position arithmetic is exact and `atol` is zero. The bounded heap is the list of its
  items in pop order, and priorities and groups are fields of a row.

## Where code and documentation differ

- `validate_contextual_path` is described as a check of necessary constraints. In
  exact arithmetic it is also sufficient, exactly when the mask leaves no hole between
  keys that take part (`MaskedExactlyWithoutHoles`); `MaskHidesAJump` is the least
  example of a hole.
- `select_rows` speaks of deterministic smallest-hash cases. With equal priorities the
  order of the source would decide which row stays (`FirstOfATieStays`);
  `OrderIsIrrelevantIff` says when. It takes a SHA-256 collision between two case ids,
  and without one the order is irrelevant (`DistinctHashesDecide`).
- `attention` stages selected rows while the baseline load is pending, waits for both and
  then writes the baseline. That write needs more: the load's done-callback must have
  run too, and it may be late. `RelocateFirstIsDense` gives the exact condition and
  `LateCallbackRefusesBaseline` the run in which the write is refused.
- `_discard_uncommitted` trusts its list of created keys. If another request has
  committed the identity meanwhile, a committed page goes (`DiscardKeepsExactly`).

## Model

| member | source | states |
|---|---|---|
| SlotWrites.Coalesce | src/cacheslide_vllm/slide.py:27-51 | Refused exactly when the records have no common positive size; otherwise the runs write each slot its own record, ascend, and no two of them touch. |
| SlotWrites.CanonicalUnique | src/cacheslide_vllm/slide.py:27-51 | Two lists of maximal runs that write the same records are equal, so the coalescing has one possible answer. |
| SlotWrites.EncodeDecode | src/cacheslide_vllm/paged.py:300-317 | An eight-byte little-endian row number decodes to itself for every row below 256^8. |
| RowPacking.RouteRows | src/cacheslide_vllm/paged.py:300-317 | Row numbers sent through byte records and coalesced runs come back at exactly the destination slots, each for its own token. |
| SlotMap.LayerSlotMap.New | src/cacheslide_vllm/slide.py:63-97 | A map is created exactly from a mapping, floor and limit that fit, with nothing pinned, vacated or issued. |
| SlotMap.LayerSlotMap.FreshSlot | src/cacheslide_vllm/slide.py:103-112 | Returns the smallest unused slot, else the next one below the limit, and fails only when there is neither. |
| SlotMap.LayerSlotMap.PinSlots | src/cacheslide_vllm/slide.py:158-172 | Granted exactly if the map is open, the slots are mapped and none is being written; every pin count rises by one or nothing changes. |
| SlotMap.LayerSlotMap.PinnedMapping | src/cacheslide_vllm/slide.py:174-191 | Pins the slots of all tokens in one block and returns their current mapping, or changes nothing. |
| SlotMap.LayerSlotMap.EnterGuard | src/cacheslide_vllm/slide.py:193-235 | All required slots are taken or none; of the optional ones exactly those free of pins, writers and sharing. |
| SlotMap.LayerSlotMap.ExitGuard | src/cacheslide_vllm/slide.py:236-241 | Reservations are returned whatever happened, and the exit fails exactly if the map was retired meanwhile. |
| SlotMap.LayerSlotMap.BeginPromote | src/cacheslide_vllm/slide.py:243-320 | An empty update is answered with the mapping as it is. Any other is taken up exactly if the map is open, its tokens are mapped and not being written, its load has not failed and the sidecar has room; each token gets its own slot or a fresh one that the map then accounts for. |
| SlotMap.LayerSlotMap.Finish | src/cacheslide_vllm/slide.py:321-360 | Publishes the whole promotion if its rows arrived and the map is open, and retires the map or fails otherwise; the result is the new mapping. |
| SlotMap.LayerSlotMap.LoadFinishedCall | src/cacheslide_vllm/slide.py:311-315 | The load's callback returns exactly the source reservations it holds. |
| SlotMap.LayerSlotMap.AllocateDecodeSlot | src/cacheslide_vllm/slide.py:374-399 | A new token gets the lowest eligible hole or a fresh slot, and is refused for capacity only when there is none. |
| SlotMap.LayerSlotMap.DecodeDestination | src/cacheslide_vllm/slide.py:401-439 | Which slot a decode gets, or which error, in every case of the code. |
| SlotMap.LayerSlotMap.BindDecodeSlot | src/cacheslide_vllm/slide.py:441-459 | Binds the token to that destination in one block. |
| SlotMap.LayerSlotMap.EnterDecode | src/cacheslide_vllm/slide.py:461-485 | Reserves the destination and the native mirror before any device write. |
| SlotMap.LayerSlotMap.ExitDecode | src/cacheslide_vllm/slide.py:486-504 | Publishes the token if its rows arrived and the map is open, and retires the map otherwise. |
| SlotMap.LayerSlotMap.Retirement | src/cacheslide_vllm/slide.py:506-509 | Invalidation closes the map and moves its generation on. |
| SlotOutcomes.CreatedExactly | src/cacheslide_vllm/slide.py:63-97 | A map is made exactly if every shared slot carries a token and every slot that does lies below the limit, which is no lower than the floor. |
| SlotOutcomes.CreatedFresh | src/cacheslide_vllm/slide.py:63-112 | Nothing is then pinned, written, vacated or unused, and the next fresh slot is the floor or the slot after the largest one in use, whichever is larger. |
| SlotOutcomes.PinGrantedExactly | src/cacheslide_vllm/slide.py:158-191 | A reader gets its pins exactly if the map is open, its tokens are mapped and no outstanding call may be writing where they live. |
| SlotOutcomes.GuardGrantedExactly | src/cacheslide_vllm/slide.py:193-235 | A guarded write is granted exactly if the map is open and none of the slots it must have is shared or in use; it gets those and the optional ones that are neither. |
| SlotOutcomes.PromotionTakenExactly | src/cacheslide_vllm/slide.py:243-320 | A promotion of some tokens is taken up exactly if the map is open, each is mapped and not on the move, its load has not failed, and there is a slot for each that cannot be overwritten in place. |
| SlotOutcomes.PromotionPicks | src/cacheslide_vllm/slide.py:278-320 | Once taken up, a row stays in place exactly where it may be overwritten, every other token gets a slot that carries nothing, and a pending load keeps the slots that are left. |
| SlotOutcomes.DecodePlacedExactly | src/cacheslide_vllm/slide.py:401-439 | A decode is granted exactly if the map is open, the token is new and not on the move, and its native slot is native and unoccupied; it goes to the lowest native hole if there is one that may be reused, else to its native slot. |
| SlotOutcomes.AllocatedExactly | src/cacheslide_vllm/slide.py:374-399 | Without a native slot a new token goes to the lowest hole, else to the lowest unused slot, else to the next one, and is refused exactly if there is none of these. |
| SlotOutcomes.LeftSlotsAreHoles | src/cacheslide_vllm/slide.py:278-459 | Over any run, while the map is open, every slot that ever carried a token still carries one, is a hole, is shared, or is where a decode under way will go. |
| SlideTheorems.GuardsAreExact | src/cacheslide_vllm/slide.py:158-504 | Over every interleaving of mutex blocks each pin, write and in-flight counter equals the number of outstanding calls on the slot, and a pinned slot is never reserved for writing. |
| SlideTheorems.WritersNeverMeet | src/cacheslide_vllm/slide.py:193-504 | Two calls whose device writes may be running share no slot, and no write targets a shared slot. |
| SlideTheorems.IssuedSlotsAreAccountedFor | src/cacheslide_vllm/slide.py:103-112 | Every slot ever issued is in exactly one of mapped, vacated, unused or destination of one pending promotion, between floor and limit. |
| SlideTheorems.VacatedIsUnmapped | src/cacheslide_vllm/slide.py:278-359 | A hole, native or not, carries no token, is not unused and is no destination. |
| SlideTheorems.LoadingSourceNotReused | src/cacheslide_vllm/slide.py:401-439 | A slot that a load still reads is never a decode destination and never an eligible hole. |
| SlideTheorems.RunKeepsInjective | src/cacheslide_vllm/slide.py:278-459 | From an injective mapping, no run ever maps two tokens to one slot. |
| SlideTheorems.PublishesAllOrNothing | src/cacheslide_vllm/slide.py:331-355 | A promotion that finishes publishes all of its tokens exactly when the map is open; its sources have never moved, so the test for that never decides. |
| SlideTheorems.RetiredForever | src/cacheslide_vllm/slide.py:487-509 | After retirement the mapping never changes again and no later completion publishes. |
| SlideTheorems.RetiredDrains | src/cacheslide_vllm/slide.py:331-372 | Every outstanding call of a retired map can exit, each exit brings it closer to empty, and then all counters are zero. |
| PagedMemory.DeviceMemory.WriteSlots | src/cacheslide_vllm/paged.py:205-240 | Native rows and sidecar rows land in their own slots and nothing else changes, except for slots a failing device leaves alone. |
| PagedMemory.DeviceMemory.WriteRouted | src/cacheslide_vllm/paged.py:300-312 | The promotion's writer puts each token's row into its destination, by way of the run records. |
| PagedStore.NativePagedKV.New | src/cacheslide_vllm/paged.py:66-128 | Succeeds exactly for a table of the cache that names a block of its own for every part of the prompt; map and memory are then those of the machine. |
| PagedStore.NativePagedKV.Write | src/cacheslide_vllm/paged.py:242-272 | The object ends in the state of the baseline call, and reports success exactly if the call was granted and every row arrived. |
| PagedStore.NativePagedKV.WriteSelectedReady | src/cacheslide_vllm/paged.py:332-374 | The same for selected rows over a ready baseline. |
| PagedStore.NativePagedKV.UpdateSelected | src/cacheslide_vllm/paged.py:376-431 | The same for fused rows with their canonical mirrors. |
| PagedStore.NativePagedKV.Gather | src/cacheslide_vllm/paged.py:433-472 | Reads through the pinned mapping in the order of the caller and leaves the arena as it was. |
| PagedStore.NativePagedKV.PromoteSelected | src/cacheslide_vllm/paged.py:279-328 | The state and result of a promotion through map and memory, also when rows are lost. |
| PagedStore.NativePagedKV.DecodeToken | src/cacheslide_vllm/paged.py:474-524 | The state and result of a decode, with the slot chosen or the error raised. |
| PagedStore.NativePagedKV.UpdateBlockTable | src/cacheslide_vllm/paged.py:153-163 | The table changes only if all existing tokens keep their canonical slots. |
| Addressing.CanonicalExactly | src/cacheslide_vllm/paged.py:146-151 | A token's canonical slot is its home: the slot in the block that the table names for it, at the token's own offset; it has one exactly if its block is in the table. |
| Addressing.TokensKeepTheirOffsets | src/cacheslide_vllm/paged.py:146-163 | In every reachable arena each token's canonical slot divided by the block size is its block's entry in the table, and the remainder is the token's. |
| Addressing.CreatedExactly | src/cacheslide_vllm/paged.py:66-128 | An arena exists exactly for a table of blocks of the cache that names a different block, not shared, for every part of the prompt. |
| Addressing.CreatedAtHome | src/cacheslide_vllm/paged.py:104-128 | In a new arena every token of the prompt lives at its home, and nothing is elsewhere. |
| PagedAdmission.BaselineGrantedExactly | src/cacheslide_vllm/paged.py:242-262 | A baseline write is granted exactly while the arena is open, before any decode, once all loads have succeeded, if no outstanding call has one of the original slots. |
| PagedAdmission.ReadyGrantedExactly | src/cacheslide_vllm/paged.py:332-363 | A ready write is granted exactly if, besides, the whole baseline is ready, no promotion is under way or has failed, and each token is not yet selected and has not moved. |
| PagedAdmission.UpdateGrantedExactly | src/cacheslide_vllm/paged.py:376-418 | A fused update is granted exactly if it may be, and nobody has a slot where one of its tokens lives. |
| PagedAdmission.PromotionTakenExactly | src/cacheslide_vllm/paged.py:279-328 | A promotion is taken up exactly if the arena is open and before any decode, its tokens are the prompt's and not yet selected, its load has not failed, and the sidecar has a slot for each. |
| PagedAdmission.DecodeGrantedExactly | src/cacheslide_vllm/paged.py:474-506 | A decode is granted exactly if the arena is open, no load has failed, no promotion is under way or has failed, and the token is the next one and has a block of its own. |
| PagedAdmission.DecodeGoesHome | src/cacheslide_vllm/paged.py:474-524 | A granted decode writes its row to the lowest hole and to the token's home, or to its home alone if there is no hole. |
| PagedAdmission.TableAcceptedExactly | src/cacheslide_vllm/paged.py:153-163 | A block table is accepted exactly if it is one of the cache's and every token there is has its home where it had it before. |
| PagedAdmission.BaselineLiesAtHome | src/cacheslide_vllm/paged.py:242-272 | After a granted baseline write every row lies at the home of its token, where the engine looks for it, also if the token now lives elsewhere; no other slot has changed. |
| PagedAdmission.UpdateLies | src/cacheslide_vllm/paged.py:376-431 | After a granted update each token's row lies where it lives, and at its home too if nobody shares or uses that slot; no other slot has changed. |
| PagedAdmission.DecodeLies | src/cacheslide_vllm/paged.py:474-524 | After a decode that returns a slot the token lives there, its row lies there and at its home, and no other slot has changed. |
| PagedAdmission.PromotesExactly | src/cacheslide_vllm/paged.py:279-328 | A promotion, awaited, succeeds exactly if it is taken up and no row is lost; then each of its tokens lives in the sidecar with its row, and every other token where it did. |
| PagedRuns.WriteIsSteps | src/cacheslide_vllm/paged.py:242-272 | A baseline call is a sequence of the atomic steps of the machine and keeps its invariant, lost rows included. |
| PagedRuns.ReadyIsSteps | src/cacheslide_vllm/paged.py:332-374 | The same for ready writes. |
| PagedRuns.UpdateIsSteps | src/cacheslide_vllm/paged.py:376-431 | The same for fused updates. |
| PagedRuns.GatherIsSteps | src/cacheslide_vllm/paged.py:433-472 | The same for gathers. |
| PagedRuns.PromoteIsSteps | src/cacheslide_vllm/paged.py:279-328 | The same for promotions. |
| PagedRuns.DecodeIsSteps | src/cacheslide_vllm/paged.py:474-524 | The same for decodes. |
| PagedTheorems.GatherReadsLastAssigned | src/cacheslide_vllm/paged.py:433-472 | In every reachable arena a gather is granted exactly if it is open, the tokens are mapped and no slot of theirs is being written; it reads the record last assigned to each token. |
| PagedTheorems.StepChangesOnlyAssigned | src/cacheslide_vllm/paged.py:242-524 | No step changes what is read for a token other than to the record it assigns; relocation, mirrors and hole reuse disturb no other token. |
| PagedTheorems.ReaderSeesSnapshot | src/cacheslide_vllm/paged.py:433-472 | While a reader holds its pins its slots keep the records of the moment it pinned them, whatever else happens. |
| PagedTheorems.WritesStayOwned | src/cacheslide_vllm/paged.py:205-240 | Device writes touch only blocks of the caller's table and the arena's own sidecar, never a shared slot, open or retired. |
| PagedTheorems.MemoryChangesInsidePlans | src/cacheslide_vllm/paged.py:205-240 | Memory changes only at slots planned by an outstanding call. |
| PagedTheorems.DecodeFindsDestination | src/cacheslide_vllm/paged.py:496-514 | A well-formed next decode always finds a slot: the lowest free native hole, else its own native slot. |
| PagedTheorems.DecodesAreCounted | src/cacheslide_vllm/paged.py:519-523 | Tokens are numbered without gaps, and hole reuses plus native binds equal the tokens decoded. |
| PagedTheorems.SidecarSuffices | src/cacheslide_vllm/runtime.py:512-528 | A promotion of new tokens is taken up exactly if the sidecar has that many slots left, and one as large as the selection always has. |
| PagedTheorems.SidecarWrittenFirst | src/cacheslide_vllm/paged.py:461-469 | A token is mapped into the sidecar only after the promotion's own device writes went there, so the sidecar tensors exist when a gather reads them. |
| PagedPrefill.WriteGrantedExactly | src/cacheslide_vllm/paged.py:242-272 | A baseline write is granted exactly if its checks pass and no outstanding call, a load with a pending callback included, holds one of its slots. |
| PagedPrefill.LoadFirstIsDense | src/cacheslide_vllm/runtime.py:541-552 | Baseline, in-place selected rows, fused rows: the arena then reads as the dense K/V. |
| PagedRelocation.RelocateFirstIsDense | src/cacheslide_vllm/runtime.py:519-552 | In any order of publication, load and callback: once the promotion and the load are awaited, the baseline write is granted exactly if the load's callback has run, and then the arena reads as the dense K/V. |
| PagedRelocation.LateCallbackRefusesBaseline | src/cacheslide_vllm/slide.py:306-315 | Whenever a promotion overtakes a pending load, device write, publication, release and end of the load can all come before the load's callback; then everything is awaited and the baseline write is refused. |
| PagedDecodes.DecodesStayDense | src/cacheslide_vllm/runtime.py:490-508 | Through any number of table updates and decodes the arena reads as the prompt K/V followed by the decoded records. |
| PagedDecodes.FullGatherIsDense | src/cacheslide_vllm/runtime.py:490-574 | After a prefill in either load order and any decodes, a gather of all tokens is granted and returns exactly the dense K/V. |
| PagedDecodes.NewArenaGathersDense | src/cacheslide_vllm/paged.py:66-128 | The same from the arena that the constructor makes of exclusively owned blocks. |
| PagedSession.New | src/cacheslide_vllm/paged.py:66-128 | Succeeds exactly for a table that describes the prompt; the new arena has every token at its home and satisfies the invariant that all calls keep. |
| PagedSession.Write | src/cacheslide_vllm/paged.py:242-272 | Without lost rows it succeeds exactly if it is allowed; the rows then lie at the homes of their tokens and are assigned to those that have not been relocated, all or none. |
| PagedSession.WriteSelectedReady | src/cacheslide_vllm/paged.py:332-374 | Without lost rows it succeeds exactly if it is allowed; the selected tokens then have their rows, all or none. |
| PagedSession.UpdateSelected | src/cacheslide_vllm/paged.py:376-431 | Without lost rows it succeeds exactly if it is allowed; the updated tokens then have their rows, also at each home that is free, all or none. |
| PagedSession.Gather | src/cacheslide_vllm/paged.py:433-472 | Returns, position by position, the record last assigned; succeeds exactly if granted and no load has failed. |
| PagedSession.PromoteSelected | src/cacheslide_vllm/paged.py:279-328 | Without lost rows it succeeds exactly if it is taken up; the promoted tokens then have moved with their rows, all or none. |
| PagedSession.DecodeToken | src/cacheslide_vllm/paged.py:474-524 | Without lost rows it succeeds exactly if it is allowed; the next token then has its row, at its home too, and no other token changes. |
| PagedSession.UpdateBlockTable | src/cacheslide_vllm/paged.py:153-163 | Accepted exactly if every token keeps its home; no record changes. |
| StorageTheorems.OnlyPutsAndDeletes | src/cacheslide_vllm/storage.py:247-605 | Through every step and every failure, the key to bytes map changes only by a first put of its key or a delete of an unused page. |
| StorageTheorems.ReadsReturnFirstPut | src/cacheslide_vllm/storage.py:453-506 | A read that succeeds, at once or by a load, returns the bytes first put under the key since its last delete. |
| StorageTheorems.CatalogIsMap | src/cacheslide_vllm/storage.py:247-605 | The catalog is exactly the map; every page is resident or has a published file with its bytes; in-flight and pin counts equal the outstanding calls. |
| StorageTheorems.BudgetsAlwaysHold | src/cacheslide_vllm/storage.py:313-327 | At every release of the mutex the byte counters are exact sums and live plus reserved bytes stay within both budgets. |
| StorageTheorems.EvictionIsShortest | src/cacheslide_vllm/storage.py:294-327 | For any space needed and any page excluded: success evicts exactly the shortest sufficient prefix of the clean-first, highest-count-first, least-recently-used order over pages neither pinned nor in flight, each after its file is published, and leaves every other page as it was; failure has evicted some prefix and nothing else, where the order or a spill ran out. |
| StorageTheorems.PutEvictsShortest | src/cacheslide_vllm/storage.py:247-292 | A page that is admitted has cost the resident copies of exactly that prefix. |
| StorageTheorems.LoadEvictsShortest | src/cacheslide_vllm/storage.py:453-475 | So has a load that reserves its space; the page to load is never evicted for it. |
| StorageTheorems.EvictZeroDropsFirst | src/cacheslide_vllm/storage.py:405-420 | An eviction without a size drops the first candidate and nothing else. |
| StorageTheorems.PinnedStaysResident | src/cacheslide_vllm/storage.py:547-557 | A pinned resident page stays in memory with its bytes through every run that does not release the pin. |
| StorageTheorems.UnbackedDeleteSucceeds | src/cacheslide_vllm/storage.py:559-571 | Deleting an unused page without a file cannot fail and touches no file. |
| StorageTheorems.SpillIsTwoSteps | src/cacheslide_vllm/storage.py:520-545 | The end of a spill is the write of the page and then the end of its ticket; each can be interleaved on its own. |
| StorageTheorems.LateLoadsAreRejected | src/cacheslide_vllm/storage.py:476-506 | A load that ends after the store was closed or moved to another epoch fails, leaves nothing resident and gives its reservation back. |
| Directories.OpensExactly | src/cacheslide_vllm/storage.py:89-152 | Whatever the process was doing when it ended, inside a write or between two evictions too, the page files are whole, and opening the directory succeeds exactly if no lock and no unfinished write is there and the files fit the budget. |
| Directories.CrashThenReopen | src/cacheslide_vllm/storage.py:89-152 | After lock and unfinished writes are cleaned up, opening with the same disk budget succeeds and finds exactly the published pages with the bytes first put under their keys, among them every page that had a backing copy and was not being deleted. |
| Directories.OneWriter | src/cacheslide_vllm/storage.py:587-605 | While a store may write, the directory cannot be opened again; once it has given up the lock it never writes there. |
| PageOutcomes.CandidatesInOrder | src/cacheslide_vllm/storage.py:294-311 | The eviction order: pages without a count before those with one, larger counts before smaller, and of the same count the less recently used, then the smaller key. |
| PageOutcomes.SpaceIsMadeIff | src/cacheslide_vllm/storage.py:313-327 | Space can be made exactly if evicting some prefix of the eviction order is enough and every page of it can be written out, or has been and can be read. |
| PageOutcomes.PutAnswers | src/cacheslide_vllm/storage.py:247-292 | When a put succeeds: in an open store, for a key that is there with the same bytes and count, or a new one whose page fits once space is made. |
| PageOutcomes.SubmitAnswers | src/cacheslide_vllm/storage.py:453-475 | A page in memory is answered at once with its bytes; another is waited for exactly if it is being loaded or its space can be made. |
| PageOutcomes.LoadAnswers | src/cacheslide_vllm/storage.py:476-506 | A load that ends succeeds exactly if the file can be read and the store is open and in the epoch the load began in; then the page is resident with its bytes. Either way the reservation is gone. |
| PageOutcomes.AwaitedAnswers | src/cacheslide_vllm/storage.py:422-506 | A read of an open store returns the bytes exactly if the key is there and the page is in memory, or its file can be read into space that can be made. |
| PageOutcomes.EvictAnswers | src/cacheslide_vllm/storage.py:405-420 | An eviction succeeds exactly in an open store that can make the space; without a size, exactly if there is a first candidate and it can be written out. |
| PageOutcomes.SpillSubmitAnswers | src/cacheslide_vllm/storage.py:508-545 | A spill is accepted exactly in an open store for a key that is there, and then succeeds exactly if the page can be written out before the store is closed. |
| PageOutcomes.ReachedCurrent | src/cacheslide_vllm/storage.py:453-605 | Over any run, whatever is outstanding in a store that is not closed began in its epoch; so a load fails for its epoch only once the store was closed. |
| PageOutcomes.PinAnswers | src/cacheslide_vllm/storage.py:547-554 | A page is pinned exactly in an open store whose map has the key; a closed store is told from a missing key. |
| PageOutcomes.DeleteAnswers | src/cacheslide_vllm/storage.py:559-571 | A key is deleted exactly in an open store if it is neither pinned, loaded nor written out by anybody, and its file, if it has one, can be removed. |
| PageOutcomes.RecencyIsLastUse | src/cacheslide_vllm/storage.py:294-311 | Over any run a page is less recently used than another exactly if its key was put or asked for earlier; pages not used since the opening come first, in the order of the directory. |
| PageStore.TieredPageStore.New | src/cacheslide_vllm/storage.py:61-152 | Takes the lock and rebuilds the catalog. A lock, an unfinished write, a corrupt or second file of a key, and more than the disk budget are the errors, each as in the code, and a refusal leaves the directory as it was. |
| PageStore.TieredPageStore.PublishPage | src/cacheslide_vllm/storage.py:328-371 | The file appears complete or not at all, and on the way the directory passes only through the states that a crash theorem speaks of. |
| PageStore.TieredPageStore.Put | src/cacheslide_vllm/storage.py:247-292 | An equal put is a touch, a different one an error; a new page is admitted exactly if space can be made. |
| PageStore.TieredPageStore.Evict | src/cacheslide_vllm/storage.py:405-420 | Evicts that prefix, spilling unbacked pages first, or reports that space cannot be made. |
| PageStore.TieredPageStore.SubmitLoad | src/cacheslide_vllm/storage.py:453-475 | Answers from memory, joins the load in flight, or reserves space and starts one. |
| PageStore.TieredPageStore.FinishLoad | src/cacheslide_vllm/storage.py:476-506 | Publishes the bytes exactly if the file can be read and the store is open and in the load's epoch, else reports why; the reservation is given back either way. |
| PageStore.TieredPageStore.SubmitSpill | src/cacheslide_vllm/storage.py:508-519 | Refused for a closed store or an absent page; a second call joins the spill under way. |
| PageStore.TieredPageStore.FinishSpill | src/cacheslide_vllm/storage.py:520-545 | Success means that the page now has a published file. |
| PageStore.TieredPageStore.Pin | src/cacheslide_vllm/storage.py:547-554 | Raises the pin count of a page in the catalog; PageSession.Pin adds the read. |
| PageStore.TieredPageStore.Delete | src/cacheslide_vllm/storage.py:559-571 | Refused while pinned or in flight; the page and its file go together. |
| PageStore.TieredPageStore.BeginClose | src/cacheslide_vllm/storage.py:587-600 | No new work is admitted; outstanding work keeps its reservations. |
| PageStore.TieredPageStore.EndClose | src/cacheslide_vllm/storage.py:600-605 | Closes for good and removes the lock, the first time. |
| PageSession.New | src/cacheslide_vllm/storage.py:61-152 | A store opens exactly when the directory allows it, satisfies the invariant of every run, and holds the bytes of its files. |
| PageSession.Put | src/cacheslide_vllm/storage.py:247-292 | Succeeds exactly if the store is open and the key is there with the same bytes, to be had without an error, or is new and space can be made; success sets the key to the bytes, failure changes no byte. |
| PageSession.Read | src/cacheslide_vllm/storage.py:422-506 | Succeeds exactly if the store is open, the key there, and the page in memory or its file readable into space that can be made; it returns the bytes of the key and makes them resident; no byte and no pin changes. |
| PageSession.Pin | src/cacheslide_vllm/storage.py:547-557 | Pins and reads: succeeds exactly if the read does, returning the bytes, resident; a failed read takes the pin back. |
| PageSession.Unpin | src/cacheslide_vllm/storage.py:547-557 | Takes exactly this pin back. |
| PageSession.Delete | src/cacheslide_vllm/storage.py:559-571 | Succeeds exactly in an open store for a key that nobody has pinned, loads or writes out and whose file can be removed; removes exactly this key; failure changes no byte. |
| PageSession.Evict | src/cacheslide_vllm/storage.py:405-420 | Succeeds exactly if the space can be made, and leaves it; no byte is lost. |
| PageSession.Spill | src/cacheslide_vllm/storage.py:508-545 | Succeeds exactly if the page can be written out; its bytes are then among those that survive a crash. |
| CommitSafety.MarkersPromisePages | src/cacheslide_vllm/runtime.py:132-265 | At every step of populate, commit, failed commit, fallback, release, crash and recovery, as long as no two live requests share an identity, a commit marker implies all 2 * layers pages with surviving copies. |
| CommitSafety.MarkersAlwaysPromisePages | src/cacheslide_vllm/runtime.py:132-265 | So it is at every moment from an empty store on, through any number of engines, and in what a crash at that moment leaves. |
| CommitSafety.DiscardKeepsExactly | src/cacheslide_vllm/runtime.py:132-142 | Discarding keeps that promise, whatever deletions fail, exactly if nothing it deletes belongs to a committed identity or the marker itself is deleted and has no file. |
| CommitSafety.TwoLiveRequestsBreakThePromise | src/cacheslide_vllm/runtime.py:132-186 | A concrete run of two live requests with one identity after which a marker stands over a missing page. |
| CommitStore.PutView | src/cacheslide_vllm/storage.py:247-292 | A put in the store is what the protocol assumes: one new page without a copy, or nothing but evictions. |
| CommitStore.SpillView | src/cacheslide_vllm/storage.py:520-545 | A spill that succeeds makes its page durable; one that fails changes nothing. |
| CommitStore.DeleteView | src/cacheslide_vllm/storage.py:559-571 | A delete fails only if a file cannot be removed. |
| CommitStore.CrashView | src/cacheslide_vllm/storage.py:89-152 | A crash at any moment of a store call, cleaned up and reopened, leaves exactly the pages with a copy after the call, or after some of the evictions inside it. |
| CommitCalls.Population.DiscardUncommitted | src/cacheslide_vllm/runtime.py:132-142 | Created keys are deleted newest first; the pages left are those that were not created or cannot be deleted, and exactly the latter stay on the list, in order; the call is a run of the machine. |
| CommitCalls.Population.RecoverPopulation | src/cacheslide_vllm/runtime.py:144-160 | Succeeds exactly if there is no marker and every page of the identity can be deleted, and then none is left; it removes only pages of this identity; the call is a run of the machine. |
| CommitCalls.Population.PutPage | src/cacheslide_vllm/runtime.py:231-254 | A page is put, which may write out others, and made durable before the next; it is remembered as soon as it is put; the call is a run of the machine. |
| CommitCalls.Population.CommitPopulation | src/cacheslide_vllm/runtime.py:256-265 | The marker is put, which may write out others, and made durable last; only then are the created keys forgotten; the call is a run of the machine. |
| CommitCalls.Population.Populate | src/cacheslide_vllm/runtime.py:397-467 | Commits exactly if there is no marker, every leftover page can be deleted, and none of the 2 * layers + 1 puts fails; then the pages of the identity are exactly those and the marker. Otherwise no marker of this attempt is there, and nothing else if all can be deleted; the whole is a run of the machine. |
| CommitCalls.Population.Preflight | src/cacheslide_vllm/runtime.py:111-130 | Reports a hit exactly if there are profiles, a reusable token, the marker and every one of the 2 * layers pages; while markers keep their promise the marker decides. |
| CommitCalls.Population.Decide | src/cacheslide_vllm/runtime.py:293-316 | Which prefill a request gets: a reuse request reuses exactly on a hit, a populate request populates exactly on a miss with profiles; a replay does neither. |
| CommitCalls.Population.Attempt | src/cacheslide_vllm/runtime.py:275-467 | A request that starts without a marker and may populate leaves the identity complete with its marker, or without any marker. |
| WaitingTheorems.LookupsNeverMiss | src/cacheslide_vllm/wait_queue.py:183-206 | In every reachable queue each live ticket's job exists and lists it, and so does the work ticket's, so the unguarded lookups succeed. |
| WaitingTheorems.OneWorkUnit | src/cacheslide_vllm/wait_queue.py:234-262 | A job is running exactly if it is the issued work ticket's. |
| WaitingTheorems.MetadataIsBounded | src/cacheslide_vllm/wait_queue.py:161-192 | Both metadata limits hold after every run. |
| WaitingTheorems.OthersKeepWaiting | src/cacheslide_vllm/wait_queue.py:161-192 | An admitted wait leaves every other consumer's ticket live and its job in the same state. |
| WaitingTheorems.WaitIsConsumedOnce | src/cacheslide_vllm/wait_queue.py:194-232 | A cancelled or woken ticket authorizes nothing in any later state: at most one lease per ticket. |
| WaitingTheorems.ReplacedWaitIsSpent | src/cacheslide_vllm/wait_queue.py:161-206 | A superseded ticket authorizes nothing in any later state. |
| WaitingTheorems.WorkIsDrainedOnce | src/cacheslide_vllm/wait_queue.py:248-262 | A late, duplicate or foreign completion is refused and changes nothing, after any run. |
| WaitingTheorems.OvertakingIsImpossible | src/cacheslide_vllm/wait_queue.py:161-262 | While a job stays queued, the queued jobs ahead of it never grow in number and drop by one with every unit of work that begins. |
| WaitingTheorems.FrontBeginsNext | src/cacheslide_vllm/wait_queue.py:234-246 | A queued job with none ahead is the next to begin. |
| WaitingTheorems.ClosedStays | src/cacheslide_vllm/wait_queue.py:281-295 | After close nobody waits and nothing begins; once the work in flight is reported no job is left. |
| WaitingTheorems.DrainedIsFinal | src/cacheslide_vllm/wait_queue.py:281-295 | A closed and drained queue never changes again. |
| WaitOutcomes.WaitAnswers | src/cacheslide_vllm/wait_queue.py:161-192 | In an open queue with room a wait is refused exactly if the consumer's live wait is of a later generation; otherwise it is the consumer's one live ticket. Without room it is refused for capacity, and nothing changes. |
| WaitOutcomes.WaitJoins | src/cacheslide_vllm/wait_queue.py:170-192 | The job of a wait that is admitted: the one that was there, in its state, or a new one that is queued; the ticket is among its consumers. |
| WaitOutcomes.OldestGoes | src/cacheslide_vllm/wait_queue.py:176-181 | Room is made only for a new job in a full catalog; what goes is the oldest of the finished jobs nobody waits for. |
| WaitOutcomes.CancelAnswers | src/cacheslide_vllm/wait_queue.py:194-206 | Exactly the ticket that is the live wait of its engine and request can be cancelled. Its job loses it, and goes if it was queued for nobody else; no other job changes. |
| WaitOutcomes.WakeAnswers | src/cacheslide_vllm/wait_queue.py:208-232 | The lease is handed on exactly if the ticket was live and the lease is for its artifact and its very consumer; every other answer but a miss is counted as an error. |
| WaitOutcomes.BeginAnswers | src/cacheslide_vllm/wait_queue.py:234-246 | Work begins exactly if the queue is open, there is a grant, no work is out and some job is queued; that job runs then, and no other job changes. |
| WaitOutcomes.FinishAnswers | src/cacheslide_vllm/wait_queue.py:248-262 | Exactly the work that is out can be reported. Success makes its job complete and failure failed; a closed queue forgets it. No other job changes. |
| WaitOutcomes.ForgetAnswers | src/cacheslide_vllm/wait_queue.py:264-279 | A finished job nobody waits for is forgotten; an unknown one is no error; any other job cannot be forgotten, and nothing can once the queue is closed. |
| WaitOutcomes.CloseAnswers | src/cacheslide_vllm/wait_queue.py:281-295 | Closing detaches every waiter and keeps exactly the job that runs, for nobody. |
| WaitCalls.WaitQueue.OnWait | src/cacheslide_vllm/wait_queue.py:161-192 | In an open queue with room refused exactly if the consumer's live wait is of a later generation; otherwise the new ticket is its one live wait and its job's consumer, and replaces the old one. A refusal changes nothing. |
| WaitCalls.WaitQueue.Cancel | src/cacheslide_vllm/wait_queue.py:194-206 | Only the exact live ticket cancels; its job loses one consumer and goes if it was queued for nobody else. |
| WaitCalls.WaitQueue.OnWake | src/cacheslide_vllm/wait_queue.py:208-232 | The wait is spent first; only a lease for exactly this key and consumer is handed on. |
| WaitCalls.WaitQueue.BeginNext | src/cacheslide_vllm/wait_queue.py:234-246 | The first queued job with consumers starts, if there is a grant and no work in flight. |
| WaitCalls.WaitQueue.Complete | src/cacheslide_vllm/wait_queue.py:248-262 | Only the issued ticket completes its job. |
| WaitCalls.WaitQueue.Forget | src/cacheslide_vllm/wait_queue.py:264-279 | Only finished jobs nobody waits for can be forgotten. |
| WaitCalls.WaitQueue.Close | src/cacheslide_vllm/wait_queue.py:281-295 | Every waiter is detached and only running jobs stay. |
| AdaptationTheorems.SelectionIsRecomputed | src/cacheslide_vllm/wca.py:167-215 | After initialization and any updates a token is selected exactly if it differed at the first layer, was never taken out, and fewer than the budget of such tokens come before it by deviation, then index. |
| AdaptationTheorems.RemovedNeverReturns | src/cacheslide_vllm/wca.py:276-294 | A token the gate took out is never selected again. |
| AdaptationTheorems.ArgsortRanks | src/cacheslide_vllm/wca.py:209-213 | The stable descending sort is a permutation in rank order. |
| AdaptationTheorems.NewRowsAreReused | src/cacheslide_vllm/wca.py:193-215 | A token that becomes active without having been active is a reused one, and every mandatory token stays active. |
| AdaptationTheorems.WeightsAreLatest | src/cacheslide_vllm/wca.py:251-294 | A token's weight is always the one it was last observed with, at first the first layer's. |
| AdaptationTheorems.MandatoryIsRecomputed | src/cacheslide_vllm/wca.py:257-272 | Mandatory rows come out exactly as recomputed, whatever the cache holds. |
| AdaptationTheorems.FusedIsBetween | src/cacheslide_vllm/wca.py:266-272 | With a clamped weight a fused entry lies between the cached and the recomputed one. |
| AdaptationRuns.AcceptedExactly | src/cacheslide_vllm/wca.py:217-249 | An update is accepted exactly if it is for the next layer, its tensors have a row for every token and every active token, the rows are said to be those of the active tokens, and all numbers are finite. |
| AdaptationRuns.FaultsAreTold | src/cacheslide_vllm/wca.py:217-249 | The first thing looked at is the layer's number; only numbers that are not finite are reported as such, and they are if all else is well. |
| AdaptationRuns.GatedExactly | src/cacheslide_vllm/wca.py:274-286 | A token leaves exactly at a layer whose number is a multiple of the interval, if it is selected and its cosine, or its distance if that is configured, is below the threshold. |
| AdaptationRuns.BudgetExactly | src/cacheslide_vllm/wca.py:167-172 | The budget is the correction fraction of the reused tokens, rounded up, but no more than differ. |
| AdaptationRuns.SelectedExactly | src/cacheslide_vllm/wca.py:167-215 | After any updates a token is selected exactly if it is reused, differed at the first layer, was not taken out by an accepted update, and fewer than the budget of such tokens have a larger deviation, or the same and a smaller index. |
| AdaptationRuns.FusedOverRuns | src/cacheslide_vllm/wca.py:257-272 | Over any run a mandatory row is the recomputed one; any other is mixed with the weight its token had when last recomputed before this layer if weights are those of the previous layer, and with this layer's otherwise. |
| AdaptationCalls.WCAState.Initialize | src/cacheslide_vllm/wca.py:151-191 | Refused exactly if deviations or weights are not finite or a token is neither reused nor mandatory, with the error of the first check that fails; otherwise the budgeted selection is made on cloned masks. |
| AdaptationCalls.WCAState.Promote | src/cacheslide_vllm/wca.py:202-215 | The selection mask gains exactly the best available candidates. |
| AdaptationCalls.WCAState.Update | src/cacheslide_vllm/wca.py:217-304 | Accepted exactly for the next layer, tensors of the right size, rows of the active tokens and finite numbers; each row then comes out as the named mixture, and exactly the tokens below the threshold at a gate leave. The first failing check decides the error, and then nothing changes. |
| Plans.Parse | src/cacheslide_vllm/contracts.py:54-121 | A request is accepted exactly if its metadata is within the size limit, decodes to the schema of version one, its chunks cover the prompt in order without gaps or overlaps and every other check holds; the chunks are kept as given. |
| Plans.ParsedIsSensible | src/cacheslide_vllm/contracts.py:87-121 | The chunks of an accepted request tile its prompt. |
| Plans.PlanPartitions | src/cacheslide_vllm/contracts.py:123-141 | Every token is fixed or mandatory; only the last can be both; fixed tokens are listed in ascending order. |
| Plans.RolesDecide | src/cacheslide_vllm/contracts.py:87-141 | In an accepted request a token is fixed exactly if some raw chunk with the role "reuse" contains it, and mandatory exactly if it is the last or some raw chunk with the role "recompute" contains it. |
| Plans.CoversExactly | src/cacheslide_vllm/contracts.py:87-121 | The chunks are accepted exactly if each has a known role and a length, and they follow one another from the first token to the last. |
| Plans.PlanOfRequest | src/cacheslide_vllm/contracts.py:54-141 | What the roles of the decoded chunks say is what the plan of the request holds. |
| SparsePrefill.Gather | src/cacheslide_vllm/runtime.py:411-432 | Each row is the output of the previous layer for that token if it was active there, else the snapshot row of that fixed token; lost exactly if it is neither. |
| SparsePrefill.NoPlaceholder | src/cacheslide_vllm/runtime.py:530-542 | Every K/V row that attention reads is a cached row, a recomputed mandatory row or a fusion of both, never a zero placeholder. |
| SparsePrefill.OnlyNumeric | src/cacheslide_vllm/runtime.py:537-540 | WCA's order, shape and index checks always pass in the loop. |
| SparsePrefill.CalibrationLinks | src/cacheslide_vllm/runtime.py:555-565 | Calibration on an accepted plan cannot fail for its masks, and hands the loop a state for the next layer. |
| SparsePrefill.Attend | src/cacheslide_vllm/runtime.py:509-568 | One attention call stops only for unreadable pages, a refused prefetch, non-finite numbers or a population page that cannot be stored; otherwise it reads faithful rows and leaves the prefetch of the next layer outstanding. |
| SparsePrefill.ReadAhead | src/cacheslide_vllm/runtime.py:267-272 | The layer's page comes from the one outstanding prefetch, and the next layer's is asked for; a second one is never outstanding. |
| SparsePrefill.Layers | src/cacheslide_vllm/runtime.py:408-461 | Stops exactly at the first layer that the specification of stops names, never for a lost row, for a second prefetch or for order and index checks of WCA; every layer computes the tokens its adaptation state selects, all mandatory tokens and so the last prompt row among them; each row enters with its provenance; a population has stored the pages of every layer passed. |
| SparsePrefill.PagesInOrder | src/cacheslide_vllm/runtime.py:433-567 | The stored pages come in the order of the population protocol, state before K/V, each with the rows of the fixed tokens at its layer. |
| SparsePrefill.Prefill | src/cacheslide_vllm/runtime.py:397-472 | Leftovers are removed first, the first page is asked for, the layers run, and a population is committed last, after all 2 * layers pages; the first of these to fail decides the stop; the last row of the output comes from the last layer. |
| SparsePrefill.StopsAreKnown | src/cacheslide_vllm/runtime.py:397-472 | What can stop a prefill at any layer: reading, prefetching and WCA only with reuse, storing only in a population, and else only a non-finite layer output. |
| SparsePrefill.PlanIsPartitioned | src/cacheslide_vllm/contracts.py:123-141 | Every accepted plan gives the loop the partition into fixed and mandatory tokens that it relies on. |
| LayerRuns.LayersAreDone | src/cacheslide_vllm/runtime.py:397-568 | Every layer of a prefill with reuse, up to where it stops: up to the calibration all tokens are computed, then the mandatory ones and those fixed ones that differed there, were not gated out since and have fewer than the budget ahead of them; each K/V row read is the recomputed one, the cached one of its place, or their mixture by the configured weight; and the first layer that does not pass stops for the first reason in the order of the code. |
| LayerRuns.DenseLayers | src/cacheslide_vllm/runtime.py:397-568 | Without reuse every layer computes all tokens and reads what it computed. |
| LayerRuns.DenseEnds | src/cacheslide_vllm/runtime.py:397-568 | Without reuse a layer stops only for a population page that cannot be stored or an output that is not finite. |
| LayerRuns.PopulationPages | src/cacheslide_vllm/runtime.py:433-568 | Of each layer a population stores, for every fixed token, the row that enters the layer, which is the output of the layer before, and the K/V row the layer computes. |
| Contextual.AcceptedIffRealizable | src/cacheslide_vllm/position.py:80-114 | A row within the clamp whose mask leaves no hole is accepted exactly if its keys increase and some gates in [0, 1] have those clamped reverse sums at the retained keys. |
| Contextual.TracesPass | src/cacheslide_vllm/position.py:295-307 | Every row that gates produce is accepted, whatever keys are omitted and whatever the mask hides. |
| Contextual.MaskedExactlyWithoutHoles | src/cacheslide_vllm/position.py:80-114 | For increasing keys, any mask and any positive clamp: every accepted row has gates if and only if no key that does not take part lies between two that do. |
| Contextual.UnmaskedHasNoHole | src/cacheslide_vllm/position.py:80-114 | Without a mask the causal keys leave no hole, so an unmasked row within the clamp is accepted exactly if some gates have it. |
| Contextual.TableAcceptedIffRealizable | src/cacheslide_vllm/position.py:80-114 | The same for a table of heads and queries. |
| Contextual.MaskHidesAJump | src/cacheslide_vllm/position.py:107-114 | The least example: three keys, the middle one hidden, an accepted row that no gates produce. |
| Subsequences.LcsLength | src/cacheslide_vllm/reproduction_metrics.py:38-52 | The result is the length of a longest common subsequence: one of that length exists and none is longer. |
| Subsequences.TableBounds | src/cacheslide_vllm/reproduction_metrics.py:43-51 | No pair of embeddings of one word list into two prefixes is longer than the table entry. |
| Windows.PrepareCorpus | src/cacheslide_vllm/training_data.py:139-197 | Succeeds exactly if the output is new, every record can be used, there is one, and the source has not changed; the windows are then the blocks of the records in order, each stamped with its line and digest, overlapping by one token and ending with the document, and the counts of the manifest are exact. |
| Windows.TrainsOnce | src/cacheslide_vllm/training_data.py:164-179 | Every adjacent pair of tokens of a document falls into exactly one window. |
| Windows.WindowsFit | src/cacheslide_vllm/training_data.py:164-165 | Each window holds 2 to L + 1 consecutive tokens of its document. |
| Windows.WindowsRejoin | src/cacheslide_vllm/training_data.py:164-165 | Windows joined at their shared tokens give the document back. |
| Selection.SelectRows | scripts/prepare_paper_data.py:39-78 | Succeeds exactly for an official split with a positive count for each of its groups and no other, distinct ids and enough cases per group; each group then gets that many cases of its own, by digest and id, none of a larger digest than one left out; all ids are returned. |
| Selection.KeptAreSmallest | scripts/prepare_paper_data.py:65-70 | The heap ends with rows of smallest priority, whatever the order. |
| Selection.WorstLeaves | scripts/prepare_paper_data.py:65-70 | When a better row comes to a full heap, the row that leaves has the largest priority, and of those the smallest id. |
| Selection.SelectionIsSortedPrefix | scripts/prepare_paper_data.py:65-77 | Without equal priorities across the boundary the selection is the first n of all rows sorted by priority and id. |
| Selection.OrderIsIrrelevantIff | scripts/prepare_paper_data.py:65-77 | The selection is the same for every order of the rows exactly if no two rows of equal priority lie on either side of the boundary. |
| Selection.DistinctHashesDecide | scripts/prepare_paper_data.py:65-77 | If no two case ids have the same digest, the order of the source never matters. |
| Selection.FirstOfATieStays | scripts/prepare_paper_data.py:65-70 | With equal digests the case that comes first stays: the least example of a tie. |

## Left out

- SlotMap.LayerSlotMap.EnterGuard: demands that the caller owns the slots, because the code relies on its docstring for it and does not check.
- PagedStore.NativePagedKV.PromoteSelected: the device writes are over when it returns, so the future it returns is already resolved; the steps in between are in the machine.
- PagedSession.New: says nothing about the rows of a new arena except that they are whatever its slots held.
- CommitSafety.MarkersPromisePages: only for runs in which no two live requests populate one identity, because it is false otherwise.
- CommitCalls.Population.Preflight: that there are profiles and tokens to reuse is an input, because profiles are not modelled.
- Plans.Parse: starts from what JSON decodes to; the decoder itself is not modelled.
- SparsePrefill.Prefill: the association mask and the arena calls inside attention are not in this loop; the latter are PagedPrefill, PagedRelocation and PagedDecodes.
- SparsePrefill.Attend: the same.
- Contextual.AcceptedIffRealizable: not for a positive tolerance, because rounding is not modelled.
- Selection.SelectRows: the two digests of a case id are inputs.
- Windows.PrepareCorpus: what the tokenizer makes of a text is an input, and of the manifest only the counts are there.
- Directories.CrashThenReopen: a write whose directory sync and whose clean-up both fail can leave a file or an unfinished write behind in a running store; such leftovers are not modelled.
- PageStore.TieredPageStore.New: symbolic links, the owner and the marker file of the directory, and page files whose name does not match their header, are not modelled.
- PageStore.TieredPageStore.Pin: only the pin count, as the read that follows is a call of its own.
- Floating-point arithmetic of attention, CoPE interpolation, norms and cosines.
- CUDA streams and events, threads as such, and the executor's queue.
- JSON, safetensors and SHA-256 encodings.
- Glue to the serving engine, command lines, benchmarks, downloads and reports.
- The training loop, adapter artifacts and profile loading.
- Statistics, page metadata and the advisory spill order, except the two decode counters.
- That a prefill always succeeds: the dense retry after a fallback can itself fail.
