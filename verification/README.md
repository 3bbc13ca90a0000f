# Verified models of Simpler's resource protocols

Simpler runs kernels on accelerator chips from a tree of Worker processes. This project models, in
Dafny, the parts of it where a wrong step loses memory, shares a device or returns the wrong bytes, and
proves what those parts promise.

| file | what it models |
|---|---|
| `RegionLease.dfy` | leases on mapped regions and the concurrent `close` of a region, as an interleaving of atomic steps |
| `VmmLedger.dfy` | the staged device-memory ledger beside a driver that may refuse any call; the entry points as a class |
| `IncludeClosure.dfy`, `CacheKey.dfy` | the include worklist and the byte stream behind a compile-cache key |
| `ArtifactCache.dfy` | processes that load, lock, compile, publish and prune cached artifacts |
| `JobScheduler.dfy`, `DeviceRange.dfy` | the device-aware job scheduler and the text form of a device list |
| `EndpointPaths.dfy`, `EndpointRegistry.dfy` | worker paths, the endpoint registry and its selectors |
| `BufferAccess.dfy`, `BackendPlanner.dfy` | the adapter judgment and single-owner region planning |
| `Descriptors.dfy`, `BufferSource.dfy`, `ImportRegistry.dfy` | wrapped device buffers at their source and imported buffers at a consumer |
| `CleanupLedger.dfy` | reports of MPI ranks about their own close, and the ledger that collects them |
| `RowMajorStrides.dfy` | default strides of a tensor view |
| `ElfText.dfy` | extraction of the `.text` payload from an ELF-64 image |
| `Prelude.dfy`, `LittleEndian.dfy`, `Text.dfy`, `RecordOrder.dfy`, `Sorting.dfy` | shared vocabulary: little-endian integers, decimal text, tuple order, a stable sort |

Concurrent protocols (`RegionLease`, `ArtifactCache`) are state machines whose steps are the critical
sections and file-system operations of the source; a theorem about them is about every reachable state
or every run. Code that updates fields in place (`VmmLedger.Ledger`, `JobScheduler.Scheduler`,
`BufferSource.Source`, `ImportRegistry.Registry`, `CleanupLedger.Ledger`, `RowMajorStrides.Tensor`) is a
class whose methods are proved equal to functions on its state, and the theorems are about those
functions. What lies outside is a parameter: a native call's return code, the exit time of a child, the
answer of opening a shared-memory object, whether a device context is alive, the hash function, path
normalization. `dafny verify dfyconfig.toml` checks everything.

## Where the code and its documentation differ

The model follows the code.

- `max_parallel` of zero or less is accepted and silently drops every job: the main loop stops with the
  queue full. `OnlyTheCapStalls` shows that this is the only way to stop early.
- The scheduler's documentation says fail-fast terminates running children. The code empties the queue
  and lets them finish.
- A negative device count passes the static check and slices the free list from its end, as Python does.
- `format_device_range` is documented as the inverse of `device_range_to_list`. Its text parses exactly
  when no id is negative, and then reads back as the same ids in ascending order, each once. That is the
  sorted list exactly when nothing repeats as well, and the list itself exactly when it was strictly
  ascending (`DeviceRange.RoundTrip`); [1, 1] reads back as [1] (`RepetitionIsLost`).
- The path pattern accepts leading zeros and one trailing newline per segment. So on arbitrary paths the
  "prefix plus slash" test misses a descent in the tree exactly when some common segment is spelled
  differently (`BelowIffSpelledDescent`, with a family of such paths in `DescentWithoutPrefix`); on
  formatted paths it is descent (`BelowIffDescent`).
- The artifact lock is held on an inode, and pruning unlinks the paths of locks not opened for the
  retention. Mutual exclusion per key survives exactly as long as no lock file in use is unlinked. That is
  so when no call keeps its lock file open longer than the retention and none opens one between the
  pruner's look at its age and its unlink, which are two operations (`PromptRunsExclude`). Either
  condition alone is not enough (`OverstayingLosesExclusion`, `RacingLosesExclusion`,
  `TimelyIsNotEnough`). What is returned stays genuine all the same.
- An ABI token is hashed without a marker for its presence. The two cases still cannot be confused,
  because the metadata is the JSON text of a mapping (`PresenceIsDecided`).
- `allocate_export` is not refused on a handle whose release has failed. The ledger still names what is
  then acquired, but nothing ever frees it: a handle's resources can be freed exactly when there are none
  or its one release is still to come (`CanBeFreedIff`, with the case itself in `ReallocationLeaks`).
- A comment in `src/common/task_interface/buffer.h` (lines 398-400) says nothing keeps a DEVICE backing
  from a host import. `select_adapter` does, for every descriptor that passed the construction gate
  (`EntriesAreLocal`); for one that did not, `UngatedHostImportIff` gives the exact cases.

## Model

| member | source | states |
|---|---|---|
| RegionLease.LeasesPinTheMapping | python/bindings/task_interface.cpp:625-642 | in every reachable interleaving the lease count is the number of live leases, and while it is positive the mapping is present |
| RegionLease.UnmapStartsWhenIdle | python/bindings/task_interface.cpp:656-695 | a native unmap starts only on a closing region without leases, and never twice on one region |
| RegionLease.NoLeaseAfterClosing | python/bindings/task_interface.cpp:625-695 | once closing has begun, no continuation of the run grants a lease; once closed, the outcome is fixed |
| RegionLease.ClosersAgree | python/bindings/task_interface.cpp:656-695 | however many calls close one region, its native close runs at most once, exactly once if any returned, and all that returned report one outcome |
| RegionLease.EraseRemovesOnlyTheClosed | python/bindings/task_interface.cpp:777-805 | a handle leaves the registry only through the erase of a call that found that very entry, and the entry is closed and unleased by then |
| RegionLease.OpenRegionsStayRegistered | python/bindings/task_interface.cpp:732-757 | a region that is not closed is found under its own handle |
| RegionLease.SomeCloserIsReady | python/bindings/task_interface.cpp:656-695 | no deadlock: with the region's leases gone, an unfinished close call can move, or it waits for the call that owns the closing and that one can |
| RegionLease.ClosersFinish | python/bindings/task_interface.cpp:777-805 | every schedule of pending close calls, with any answers of the native closes, has at most a stated number of steps; with no leases held it can go on until every call has returned |
| RegionLease.RunKeepsInv | python/bindings/task_interface.cpp:620-817 | every step of every run keeps the protocol invariant that ties counts, mappings, closers and registry together |
| VmmLedger.AlignBytes | python/bindings/task_interface.cpp:919-935 | the least multiple of the granularity that covers the request, refused exactly when the request is empty or that multiple exceeds 64 bits |
| VmmLedger.LedgerRefinesDriver | python/bindings/task_interface.cpp:1340-1536 | after any history with any stage failing before or after its commit, a record's flags are what the driver holds for it and everything the driver holds is named by a retained record |
| VmmLedger.ReplayKeepsInv | python/bindings/task_interface.cpp:1321-1536 | the ledger invariant holds along every history of begin, allocate and release |
| VmmLedger.CleanupCallsOnceAndInOrder | python/bindings/task_interface.cpp:1421-1536 | over every history each cleanup call is issued at most once per handle, and neither address release nor physical free while the mapping is in place |
| VmmLedger.FirstReleaseOutcome | python/bindings/task_interface.cpp:1465-1536 | the first release deletes the record exactly when it succeeds, leaving nothing held; otherwise it throws the recorded first failure, never the uncleared-state fallback |
| VmmLedger.FirstReleaseSucceedsIff | python/bindings/task_interface.cpp:1465-1536 | the first release succeeds exactly when the device binds and no stage it needs fails |
| VmmLedger.LaterReleaseRepeats | python/bindings/task_interface.cpp:1465-1477 | a later release of a surviving record throws the same failure again, calls no driver and changes nothing |
| VmmLedger.ReleasedHandleNeverFrees | python/bindings/task_interface.cpp:1340-1536 | the memory, addresses and mappings of a released handle are held in every continuation |
| VmmLedger.CanBeFreedIff | python/bindings/task_interface.cpp:1340-1536 | on every reachable state: some continuation leaves the driver holding nothing for a handle exactly when it holds nothing already or the handle has not been released |
| VmmLedger.ReallocationLeaks | python/bindings/task_interface.cpp:1340-1419 | a reachable state in which a released handle holds physical memory |
| VmmLedger.Ledger.RunAllocateStage | python/bindings/task_interface.cpp:1340-1419 | one allocation stage in place is the stage function on ledger and driver |
| VmmLedger.Ledger.Allocate | python/bindings/task_interface.cpp:1340-1419 | the five stages in place are the allocation function, stopping at the first failure |
| VmmLedger.Ledger.RunCleanupStage | python/bindings/task_interface.cpp:1421-1463 | one cleanup stage in place is the stage function on ledger and driver |
| VmmLedger.Ledger.ReleaseRegion | python/bindings/task_interface.cpp:1465-1536 | release in place is the release function, record deletion and thrown error included |
| IncludeClosure.FirstFile | simpler_setup/scene_test_cache.py:93-100 | the first search directory that holds the named file decides |
| IncludeClosure.SourceClosure | simpler_setup/scene_test_cache.py:138-171 | the worklist ends, on cyclic includes too, with exactly the files reachable from the root, their digests and one edge per resolved directive; it fails exactly when a reachable file, the root or one an include resolved to, cannot be read |
| IncludeClosure.Scan | simpler_setup/scene_test_cache.py:165-170 | scanning one file adds exactly its resolved edges and queues exactly their unseen targets |
| IncludeClosure.ClosedHoldsReachable | simpler_setup/scene_test_cache.py:138-171 | a set that holds the root and whatever its members include holds everything reachable |
| IncludeClosure.ClosureIsUnique | simpler_setup/scene_test_cache.py:138-171 | two traversals in any order agree on files, digests and how often each edge occurs |
| CacheKey.StreamInjective | simpler_setup/scene_test_cache.py:174-232 | for a fixed presence of the ABI token, equal byte streams have equal token, metadata and ordered units with equal directories, source, file and edge records |
| CacheKey.PresenceIsDecided | simpler_setup/scene_test_cache.py:180-187 | a stream with an ABI token never equals one without, as the metadata is the JSON text of a mapping |
| CacheKey.UnitInjective | simpler_setup/scene_test_cache.py:189-231 | one unit's bytes, followed by anything that can follow, determine the unit and what follows |
| CacheKey.ListInjective | simpler_setup/scene_test_cache.py:198-231 | a tagged list of self-delimiting items is read back item by item, whatever untagged bytes come after |
| CacheKey.KeyDeterminesUnit | simpler_setup/scene_test_cache.py:189-231 | equal unit records mean the same directories, root, file digests and edge multiset |
| CacheKey.UnitDeterminesKey | simpler_setup/scene_test_cache.py:206-221 | sorting makes equal file maps and edge multisets contribute equal bytes |
| CacheKey.KeyIgnoresTraversal | simpler_setup/scene_test_cache.py:206-221 | the bytes of a unit do not depend on the order in which its closure was traversed |
| CacheKey.StreamsEqualIff | simpler_setup/scene_test_cache.py:174-232 | with or without ABI tokens, two streams are equal exactly when token, metadata and all units are |
| CacheKey.UpdateAll | simpler_setup/scene_test_cache.py:198-202 | the successive digest updates of a list append its tagged encoding |
| CacheKey.UpdateUnit | simpler_setup/scene_test_cache.py:189-231 | the successive digest updates of a unit append its encoding |
| CacheKey.CompileSourceKey | simpler_setup/scene_test_cache.py:174-232 | the hashed bytes are the encoding of token, metadata and the units' closures in order; it fails exactly when some unit reaches a file that cannot be read |
| ArtifactCache.ReturnedIsGenuine | simpler_setup/scene_test_cache.py:446-476 | in every interleaving, with or without mutual exclusion, a call returns its own compile result or bytes compiled and completely published for the same key |
| ArtifactCache.RunKeepsInv | simpler_setup/scene_test_cache.py:273-323 | along every run each manifest on disk vouches for bytes published for its key, and each reader holds such a manifest |
| ArtifactCache.MatchIsPublished | simpler_setup/scene_test_cache.py:273-286 | a manifest on disk that matches the binary at hand proves that binary was published for the key |
| ArtifactCache.MutualExclusion | simpler_setup/scene_test_cache.py:377-411 | two calls past the lock of one inode are one call, and of one key too while no lock file in use has been unlinked |
| ArtifactCache.RunKeepsLocks | simpler_setup/scene_test_cache.py:377-411 | along every run a call past the lock is the holder of the inode it opened |
| ArtifactCache.StepKeepsLocks | simpler_setup/scene_test_cache.py:368-411 | a step breaks the link between open lock files and their paths exactly when it unlinks the path of one in use |
| ArtifactCache.PromptRunsExclude | simpler_setup/scene_test_cache.py:336-411 | mutual exclusion per key in every run with pruning in which no call keeps its lock file open longer than the retention and none opens one between the look at its age and its unlink |
| ArtifactCache.OldIsUnused | simpler_setup/scene_test_cache.py:368-371 | a lock found older than the cutoff is in use by nobody who keeps to the retention |
| ArtifactCache.FoundOldIff | simpler_setup/scene_test_cache.py:346-371 | a call that starts pruning finds a lock old exactly when its last opening is longer ago than the retention |
| ArtifactCache.UnlinkingLosesExclusion | simpler_setup/scene_test_cache.py:368-411 | from any state in which a pruner has found the lock of a call past it old, five steps put a second call past the lock of the same key |
| ArtifactCache.OverstayingLosesExclusion | simpler_setup/scene_test_cache.py:336-411 | from any state with a call past a lock last opened longer ago than the retention and one that may prune, seven steps put a second call past the lock of the same key |
| ArtifactCache.RacingLosesExclusion | simpler_setup/scene_test_cache.py:368-411 | so do nine steps when a call opens an old lock after its age was looked at |
| ArtifactCache.TimelyIsNotEnough | simpler_setup/scene_test_cache.py:368-411 | for every retention, a run from the start in which nobody overstays it and two calls for one key end up past the lock |
| ArtifactCache.CompilesOnce | simpler_setup/scene_test_cache.py:446-476 | without pruning, failures or deaths, concurrent misses on a key compile it once and all calls return the same bytes |
| ArtifactCache.CalmRun | simpler_setup/scene_test_cache.py:446-476 | the invariant behind it holds along every undisturbed run |
| JobScheduler.LaunchKeepsValid | simpler_setup/parallel_scheduler.py:209-255 | starting the head keeps the scheduler invariant: free and held devices are a permutation of the pool, each job holds its count, the cap holds, the started jobs are a prefix |
| JobScheduler.CollectKeepsValid | simpler_setup/parallel_scheduler.py:257-281 | collecting a child keeps that invariant |
| JobScheduler.HeldDeviceIsNotFree | simpler_setup/parallel_scheduler.py:109-119 | from a pool without repetition, a device of a running job is held once and is not free |
| JobScheduler.JobsShareNoDevice | simpler_setup/parallel_scheduler.py:109-119 | and no other running job holds it |
| JobScheduler.OnlyTheCapStalls | simpler_setup/parallel_scheduler.py:288-314 | the loop's break is reached with jobs queued only when max_parallel is zero or less |
| JobScheduler.OutcomeOf | simpler_setup/parallel_scheduler.py:283-339 | a finished run has one result per started job, the started jobs are a prefix, and under fail-fast none starts after a failing result |
| JobScheduler.Scheduler.constructor | simpler_setup/parallel_scheduler.py:188-194 | a new run queues all jobs, holds the whole pool free and satisfies the invariant |
| JobScheduler.Scheduler.TryLaunchHead | simpler_setup/parallel_scheduler.py:209-255 | the head starts exactly when the cap and the free devices allow, with the first free devices; nothing else changes |
| JobScheduler.Scheduler.Fill | simpler_setup/parallel_scheduler.py:283-287 | starts jobs until the head is blocked or the queue is empty |
| JobScheduler.Scheduler.PollFirst | simpler_setup/parallel_scheduler.py:257-263 | the first running child found gone, or the proof that none was |
| JobScheduler.Scheduler.ReapOne | simpler_setup/parallel_scheduler.py:257-281 | that child's devices return to the end of the free list and its result is recorded; nothing else changes |
| JobScheduler.Scheduler.AfterReap | simpler_setup/parallel_scheduler.py:294-304 | under fail-fast a failing result empties the queue; otherwise the freed slot is refilled |
| JobScheduler.Turn | simpler_setup/parallel_scheduler.py:288-314 | one turn keeps the invariant and either makes progress or stops because the cap admits nothing |
| JobScheduler.MainLoop | simpler_setup/parallel_scheduler.py:288-314 | the loop ends with nothing running and, unless the cap admits nothing, nothing queued |
| JobScheduler.RunJobs | simpler_setup/parallel_scheduler.py:141-339 | rejects exactly the lists with a job larger than the pool, naming the first; otherwise ends with the outcome above |
| DeviceRange.DeviceRangeToList | simpler_setup/parallel_scheduler.py:369-396 | the ids a spec names, ascending, each once; a failure exactly when a part is malformed |
| DeviceRange.RoundTrip | simpler_setup/parallel_scheduler.py:399-401 | formatting then parsing: succeeds exactly when no id is negative, lists the same ids ascending, is the sorted list exactly when nothing repeats too, and the list itself exactly when it was ascending |
| DeviceRange.TextNamesSorted | simpler_setup/parallel_scheduler.py:91-106 | the text of a list names its ids in sorted order, repetitions included, exactly when none is negative |
| DeviceRange.RepetitionIsLost | simpler_setup/parallel_scheduler.py:399-401 | [1, 1] reads back as [1] |
| Text.ParseFormatNat | python/simpler/comm_endpoints.py:146-148 | decimal formatting is undone by parsing |
| Text.PrefixIffParts | python/simpler/comm_endpoints.py:320-322 | starting with a text and a separator is having its parts as a strict prefix |
| EndpointPaths.ParseEndpointPath | python/simpler/comm_endpoints.py:123-143 | the segments of a path, accepted exactly when every part matches and stands in its place |
| EndpointPaths.ParseFormatSegment | python/simpler/comm_endpoints.py:120-148 | a formatted segment parses back to itself |
| EndpointPaths.ParseOfBuilt | python/simpler/comm_endpoints.py:123-148 | a path built by repeated formatting parses back to its segments |
| EndpointPaths.BelowImpliesDescent | python/simpler/comm_endpoints.py:320-322 | on any two accepted paths "prefix plus slash" implies strict descent |
| EndpointPaths.BelowIffDescent | python/simpler/comm_endpoints.py:320-322 | on formatted paths the two are the same |
| EndpointPaths.BelowIffSpelledDescent | python/simpler/comm_endpoints.py:320-322 | on any two accepted paths the textual test is descent with every common segment spelled alike, so it misses a descent exactly when one is spelled differently |
| EndpointPaths.DescentWithoutPrefix | python/simpler/comm_endpoints.py:120-143 | a family of accepted paths that descend without the textual prefix |
| EndpointRegistry.ScanEntries | python/simpler/comm_endpoints.py:334-390 | accepts exactly distinct, well-formed entries with distinct nonces; node scopes agree exactly when normalized hosts do, and the local host has scope 0 |
| EndpointRegistry.CheckSessions | python/simpler/comm_endpoints.py:306-331 | accepts exactly the snapshots whose MPI views fit their endpoints and pairwise agree |
| EndpointRegistry.AcceptsIffAgrees | python/simpler/comm_endpoints.py:306-331 | the three dictionaries accept a view exactly when it agrees with every earlier one |
| EndpointRegistry.BuildIndexes | python/simpler/comm_endpoints.py:294-304 | the dictionaries answer what a scan of the records would, or a path does not parse |
| EndpointRegistry.FromSnapshot | python/simpler/comm_endpoints.py:334-399 | a snapshot is accepted exactly when entries, paths and sessions are in order; the registry then has one record per entry, no identity twice and faithful indexes |
| EndpointRegistry.AtIsScan | python/simpler/comm_endpoints.py:510-528 | AT answers with the record a scan finds, or with the error a scan explains |
| EndpointRegistry.UnderIsExact | python/simpler/comm_endpoints.py:529-548 | UNDER answers with exactly the strict descendants of that deployment in segment order, or with the error that fits: unparsable path, unrecorded path, no descendant |
| EndpointRegistry.SortIsStable | python/simpler/comm_endpoints.py:530-535 | the answer is a permutation in segment order, ties in registration order |
| EndpointRegistry.ResolveMembers | python/simpler/comm_endpoints.py:420-435 | a member list resolves exactly when every selector does and no endpoint comes up twice; it lists the answers in order |
| BufferAccess.ReachableIff | python/simpler/comm_endpoints.py:806-867 | the default service in one sentence: a host reaches every same-node backing but a remote one, a device only memory of its own endpoint, nothing crosses nodes |
| BufferAccess.FirstSupported | python/simpler/comm_endpoints.py:1050-1072 | the first candidate a service supports, if any |
| BackendPlanner.ChooseProvider | python/simpler/comm_endpoints.py:946-970 | an explicit provider must be a member; otherwise AI cores before AI CPUs before hosts; fails exactly when there is none |
| BackendPlanner.ConsumerAttachment | python/simpler/comm_endpoints.py:998-1047 | a consumer gets the first supported candidate, or a refusal that lists all that were tried |
| BackendPlanner.PlanPart | python/simpler/comm_endpoints.py:972-996 | one attachment per member in order, or the refusal of the first member that has none |
| BackendPlanner.RequireUsable | python/simpler/comm_endpoints.py:410-418 | the fault of the first member that is not the registry's own or whose session was seen unavailable |
| BackendPlanner.MakePlan | python/simpler/comm_endpoints.py:918-944 | for any access service: raises, refuses or plans exactly as layout, members, provider and the two parts decide |
| BackendPlanner.DefaultAttachesIff | python/simpler/comm_endpoints.py:1154-1167 | the default service attaches a consumer exactly when it is a host on the provider's node |
| BackendPlanner.PlanRegion | python/simpler/comm_endpoints.py:918-1047 | for any distinct members the default service plans exactly when every member but the chosen provider is a host on its node; both parts list all members in order with one provider |
| BackendPlanner.PlanSelected | python/simpler/comm_endpoints.py:437-448 | selectors in, plan out: when resolution fails, when a session stops it, and when the region is planned |
| BackendPlanner.ResolvedAreRecords | python/simpler/comm_endpoints.py:510-548 | whatever a selector resolves to is a record of the registry |
| Descriptors.WrappedAddress | python/simpler/buffer.py:616-645 | the pointer wrapped into a descriptor is the pointer read out of it |
| LittleEndian.LittleRoundTrip | python/simpler/buffer.py:901-910 | little-endian encoding is undone by decoding |
| BufferSource.RunKeepsInv | python/simpler/buffer.py:213-313 | along every run of wrap, acquire, release and close, with identities also burned elsewhere, the source invariant holds |
| BufferSource.RangesAreDisjoint | python/simpler/buffer.py:234-262 | every device byte is in at most one live registration, and each registration lies in the uint64 space and carries its address |
| BufferSource.IdentitiesAreNeverReused | python/simpler/buffer.py:157-175 | a wrap returns an identity that was never issued, here or by another source of the owner |
| BufferSource.IssuedGrows | python/simpler/buffer.py:157-175 | the issued identities only grow along a run |
| BufferSource.ValidatedNamesItsRange | python/simpler/buffer.py:264-272 | a descriptor that passes provenance is the wrapped one: gated, and its body is the wrapped address |
| BufferSource.AcquireAllOrNothing | python/simpler/buffer.py:274-292 | fails without effect exactly when some argument is released or altered; otherwise each live identity named gains exactly one use |
| BufferSource.UsesBlockClose | python/simpler/buffer.py:305-313 | in every run use counts are accepted minus returned uses; a registration is removed exactly when they are zero, and otherwise nothing changes |
| BufferSource.ReleaseUndoesAcquire | python/simpler/buffer.py:294-298 | releasing what was acquired, in any order, restores the state |
| BufferSource.DropSubtracts | python/simpler/buffer.py:294-298 | a release takes one use per listed occurrence up to the first unknown identity |
| BufferSource.Allocator.BurnIdentity | python/simpler/buffer.py:169-175 | identities are consecutive from 1 and refused after 2^64 - 1 |
| BufferSource.Source.WrapRange | python/simpler/buffer.py:234-262 | wrapping in place is the wrap function, refusals and burned identity included |
| BufferSource.Source.AcquireArgs | python/simpler/buffer.py:274-292 | acquiring in place is the acquire function: all arguments are checked before any count changes |
| BufferSource.Source.ReleaseUses | python/simpler/buffer.py:294-298 | releasing in place is the release function, early stop included |
| ImportRegistry.AdapterIff | python/simpler/buffer.py:820-887 | which gated descriptors an endpoint reaches and by what: hosts copy device backings through the owner, chips of the owning Worker map their own |
| ImportRegistry.SelectAdapter | python/simpler/buffer.py:820-887 | the first supported candidate, or the refusal of the last |
| ImportRegistry.RunKeepsInv | python/simpler/buffer.py:1097-1254 | along every run every entry is what importing its gated descriptor here gave |
| ImportRegistry.EntriesAreLocal | python/simpler/buffer.py:1097-1153 | no host holds a device mapping; a device mapping is at a chip of the owning Worker; a base is the carried address or a mapping large enough |
| ImportRegistry.RightsFollowAccess | python/simpler/buffer.py:786-814 | an entry grants exactly the rights its backing's access mode allows: no store or copy-in over READ, no load or copy-out over WRITE |
| ImportRegistry.OneIdentityOneMeaning | python/simpler/buffer.py:1117-1129 | after any run that keeps an identity registered, its first descriptor is answered with the first entry and any other is refused, with nothing changed |
| ImportRegistry.EntryNeverChanges | python/simpler/buffer.py:1097-1254 | while an identity stays registered, its base, descriptor and rights stay the same through any run |
| ImportRegistry.UngatedHostImportIff | python/simpler/buffer.py:820-887 | without the construction gate a host maps a DEVICE descriptor exactly for the three host backends |
| ImportRegistry.WrappedBufferArrives | python/simpler/buffer.py:1097-1153 | a buffer wrapped at its source is imported at the wrapped address by the owner's chips, delegated at the owning host, refused elsewhere |
| ImportRegistry.Registry.MaterializeOne | python/simpler/buffer.py:1097-1153 | materializing in place is the materialize function |
| ImportRegistry.Registry.CloseAll | python/simpler/buffer.py:1235-1254 | leaves exactly the entries whose unmap raised and reports the first of them in order |
| CleanupLedger.RoundTrip | python/simpler/mpi_direct_cleanup.py:47-82 | a well-formed report decodes to itself exactly when its JSON text fits the limit |
| CleanupLedger.HonestReportsFit | python/simpler/mpi_direct_cleanup.py:51-82 | whatever its failure texts escape to, a well-formed report fits beside an identity of up to 8000 JSON bytes |
| CleanupLedger.RoomMakesHonest | python/simpler/mpi_direct_cleanup.py:165-203 | such a rank's begin and final reports both fit, so it counts as an honest sender below |
| CleanupLedger.DecodeIsWellFormed | python/simpler/mpi_direct_cleanup.py:51-82 | what decodes has a known command, bounded failures and an outcome that fits its sequence |
| CleanupLedger.Clip | python/simpler/mpi_direct_cleanup.py:30-32 | a failure text is cut to its longest prefix within the limit |
| CleanupLedger.AcceptAdvances | python/simpler/mpi_direct_cleanup.py:100-114 | one payload changes the ledger exactly when it is accepted as new, and then only forward |
| CleanupLedger.RunAdvances | python/simpler/mpi_direct_cleanup.py:85-114 | over every payload sequence ranks and identities stay, sequences only rise, commands and final outcomes never change |
| CleanupLedger.LedgerIsWhatArrived | python/simpler/mpi_direct_cleanup.py:100-114 | the ledger is a function of which honest reports arrived; order, repetition and junk leave no trace |
| CleanupLedger.FinalReportsDecide | python/simpler/mpi_direct_cleanup.py:190-203 | any delivery that includes every final report ends in the same ledger |
| CleanupLedger.JobConverges | python/simpler/mpi_direct_cleanup.py:88-94 | the same for the ledger a job is enrolled with |
| CleanupLedger.Ledger.constructor | python/simpler/mpi_direct_cleanup.py:88-94 | rank 0 and every executor are enrolled unreported |
| RowMajorStrides.Tensor.FillView | python/bindings/task_interface.cpp:1648-1692 | fails exactly for the ranks, numbers, lengths and shapes stated on the arguments alone; otherwise shapes and strides are set, the default strides being the suffix products |
| RowMajorStrides.Tensor.Contiguous | python/bindings/task_interface.cpp:1665-1681 | accepts exactly when every proper suffix product is a uint32; the uint64 accumulator never wraps |
| RowMajorStrides.ContiguousIsBijective | python/bindings/task_interface.cpp:1665-1681 | for shapes without zeros, index to offset is a bijection onto 0 .. numel - 1 |
| RowMajorStrides.OffsetThenIndex | python/bindings/task_interface.cpp:1665-1681 | every index has an offset below the element count and is recovered from it |
| RowMajorStrides.IndexThenOffset | python/bindings/task_interface.cpp:1665-1681 | every offset below the element count is the offset of an index of the shape |
| ElfText.Extract | simpler_setup/elf_parser.py:112-203 | for every byte string: accepted exactly when the image is self-contained and its entry symbol is first, and then exactly the bytes of the last `.text`; each rejection has its stated cause |
| ElfText.ScanSections | simpler_setup/elf_parser.py:153-184 | the last `.text` and whether there is out-of-line text, a text relocation or allocated constants; fails exactly on a name or a `.text` out of bounds |
| ElfText.FindEntry | simpler_setup/elf_parser.py:240-244 | the first symbol of a table named as the entry point |
| ElfText.CheckEntry | simpler_setup/elf_parser.py:206-258 | holds exactly when the first entry symbol of the image, if any, is at the start of `.text` |
| ElfText.NameReadsBack | simpler_setup/elf_parser.py:344-358 | a NUL-terminated ASCII name is read back whole wherever it lies in its table |

## Left out

- RegionLease: a state machine over values, because the property is about interleavings; the objects' own in-place update, the overflow of the lease counter and the test hooks are not modelled.
- ArtifactCache: a state machine over values for the same reason; one clock that never runs backwards serves processes and file times, and the ages of binaries and manifests are left open, so pruning may remove any of them.
- `get_or_compile`: the callable-artifact variant runs the same protocol over another payload and would only repeat it.
- CacheKey.StreamsEqualIff: is about the hashed byte stream, not the SHA-256 digest; the JSON text of the metadata and the file-system spelling of paths are parameters.
- IncludeClosure.SourceClosure: the disk does not change during the walk, asking whether a candidate is a file never fails, and the scan of one file's text for directives and its memo are a parameter of the disk.
- VmmLedger.LedgerRefinesDriver: a failing driver call has no effect on the driver; zeroing and counter notify or wait are not modelled.
- JobScheduler.RunJobs: a child is an oracle for its exit code and time; pipes, pump threads, signals, callbacks and the path taken when a launch raises are not modelled.
- DeviceRange.DeviceRangeToList: `int()` on ASCII digits only, without digit separators or other Unicode digits.
- EndpointPaths.ParseEndpointPath: no limit on the number of digits of an index.
- EndpointRegistry.FromSnapshot: address normalization of a host is a parameter, and the range checks inside an MPI session view are not modelled.
- BackendPlanner.MakePlan: the texts and labels of refusals are not modelled.
- ImportRegistry.Registry.MaterializeOne: the operating system's answer to opening a shared-memory object is a parameter; tensor views over a mapping are not modelled.
- CleanupLedger.RoundTrip: texts are sequences of Unicode scalar values, so lone surrogates are not modelled, nor are the sockets that carry the reports.
- RowMajorStrides.Tensor.FillView: conversion of Python objects is the range check of a uint32; the later validation of a finished tensor is not modelled.
- ElfText.Extract: the magic-number dispatch and Mach-O extraction are not modelled.
- The nanobind module body, `Worker`, `Orchestrator`, the compilers and the MPI launcher are orchestration and are not part of this model.
