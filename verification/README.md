# Privateer: the demand-paging engine and its block store

Privateer gives a program one flat range of memory backed by a content-addressed
block store, and lets it freeze the range as versions that can be reopened. This
project models the SIGACTION engine and the storage below it, and proves that the
program cannot tell the difference between that machinery and a byte array.

## What is modelled

- **Paging.** A region is an array of blocks with a budget of resident ones. The
  SIGSEGV handler brings blocks in, marks them dirty, and evicts: clean blocks are
  dropped first, dirty ones go to stash files. A block's contents live in one of four
  places: memory, its stash file, the store file its id names, or implicit zeros.
  `Pager` has the steps as functions, `PagerLemmas` and `Access` what they keep,
  `Replacement` which block goes, and `RegionObject.Region` does the same steps in
  place on lists, sets and arrays.
- **Flush.** msync stores the dirty blocks and commits the stashed ones, both in
  parallel; `Flush` takes the orders of the tasks as arguments, `ParallelFor` and
  `ParallelFlush` show that every schedule of the worker threads gives such an order.
- **Store.** Files named by their hash, in one tier or two, published by writing a
  temporary file and renaming it. `Store` has the operations, `Publication` and
  `TierRaces` every interleaving of their file operations, `StorageObject.BlockStorage`
  the object.
- **Versions.** `Metadata` is the file of 64-character records, `World` the version
  directories and any number of processes working on them, each step of one
  interleaved with those of the others; a process may die between steps, or inside an
  msync, close or snapshot.
  `Steps` says what a step can touch; `Contents`, `Recovery`, `FreshRegion`,
  `LostBlock`, `Isolation`, `ReadOnly`, `Rollback` and `Crash` hold the main results,
  about every run.
- **Fault event queue.** `EventQueue` is the monitor of the userfaultfd engine with
  its workers, one step at a time.

Each class method is proved to do exactly what a specification function says
(`ensures ... == F(old state)`), and the lemmas are about those functions. A step
that makes the process exit is `None`, or an `exited` result.

## Assumptions

- The digest function is abstract. `Sound(c, u)` says that on the blocks `u` that
  occur in a run it has no collision and never yields the reserved empty id
  (section 6.2 of FIPS 180-4 defines the function that is used). `LostBlock.LosingRunExists`
  and `Rollback.RollbackExists` are runs in which all assumptions are met.
- UUIDs and `mkstemp` names are fresh, file operations succeed, sizes do not
  overflow, a map insert by a parallel task is atomic. The budget is at least one block.
- As on x86, `PROT_WRITE` makes a page readable and writable.
- One region a process, and no access to it while it runs msync
  (test/PrivateerTest.cpp:318-320). No version is recreated while a process has it open.
- All processes that share a base directory share its stash directory.
- In `World` processes interleave in whole operations: a load, a store, an msync, a
  snapshot; a death can fall between any two tasks of a flush. `Publication` and
  `TierRaces` take store_block, commit_stash_block and get_block_full_path apart into
  file operations.
- Compression is off.

## Where the code differs from what one would expect

- update_metadata writes records only up to the highest block that is resident now
  (src/privateer/sigaction_virtual_memory_manager.cpp:600-608), so after evictions a
  snapshot can miss blocks. `LostBlock.LosingRun` is such a run;
  `Recovery.SyncRecoversAllIff` and `Recovery.SnapshotRecoversAllIff` say exactly when
  nothing is missed, and `FreshRegion` shows that a new region within its budget never
  misses any, whatever other processes do.
- On a fault for a resident block the handler grants read-write even to a read
  (src/privateer/sigaction_virtual_memory_manager.cpp:419-439).
  `Access.HandlerKeepsInvariantIff` gives the faults it is right for, and
  `Access.HandlerKeeps` shows that all faults the protections can raise are among them.
- The lists are named LRU, but an access to a resident block that raises no fault moves
  nothing: eviction goes by when a block came on its list (`Replacement.OldestGoesFirst`).
- store_block declares a second `block_hash` in its stash branch
  (src/privateer/posix_block_storage.cpp:36), so the base tier hashes again and the empty
  string is what is recorded for the block. Only the record's key is ever looked at.
- msync and close of a read-only region write its ids back
  (src/privateer/sigaction_virtual_memory_manager.cpp:596-642 does not ask whether the
  region is read-only). While the file still holds the ids the region was opened with,
  that at most lengthens it by empty records. After a writer saved the version it rolls
  the records back, and the saved blocks are lost: `Rollback.RollbackExists` is such a
  run, `ReadOnly.StepKeepsVersionIff` says exactly when it happens.
- copy_to_stash copies onto the final name
  (include/privateer/utility/file_util.hpp:41-54), and commit_stash_block goes to the base
  tier only when the stash tier lacked the block, so processes that share a stash
  directory can read a torn copy, exit because the name was taken since they checked, or
  leave a block out of the base tier after a death; and a torn copy whose maker died is
  repaired only by a rename that was under way. `TierRaces` has the runs and the exact conditions.
- Threads in wait_for_idle share one signal, and the one it wakes sends none, so a second
  can wait on while the queue is idle (`EventQueue.NeverForgottenIff`,
  `EventQueue.ForgottenUntilDisturbed`).
- A worker of the userfaultfd engine that finds its block present skips the event without
  taking the address out of flight (src/privateer/uffd_virtual_memory_manager.cpp:408-410),
  so later faults at that address are dropped (`EventQueue.AbandonedForEver`).

## Model

| member | source | states |
|---|---|---|
| `Contents.ReadsReturnLastWrite` | src/privateer/sigaction_virtual_memory_manager.cpp:382-594 | Over every run of every process, a load returns the value of the last store this process made at that offset, or the byte the region started with if there was none; faults, evictions, msyncs, snapshots and other processes in between make no difference |
| `Contents.RegionIsFlatArray` | src/privateer/sigaction_virtual_memory_manager.cpp:382-594 | Over every run the logical contents (memory, else stash file, else store file, else zeros) of every byte of the region are those of a flat array to which only the stores were applied |
| `Contents.StepContents` | src/privateer/sigaction_virtual_memory_manager.cpp:252-308 | One step of any process changes the logical contents of a region only if it is a store by its own process, and then only the block stored to; evictions, read faults, msyncs and snapshots change none |
| `Contents.CreatedRegionIsZero` | src/privateer/sigaction_virtual_memory_manager.cpp:109-113 | Every byte of a created region reads as zero, whatever the block store already holds |
| `Contents.CreatedRegionSize` | src/privateer/sigaction_virtual_memory_manager.cpp:69-72 | A created region is under the name asked for, writable, with the budget asked for; it is the least whole number of blocks that holds the size, and its capacity file says so |
| `Contents.ResidencyIsBounded` | src/privateer/sigaction_virtual_memory_manager.cpp:644-683 | Over every run no process has more resident blocks than its budget, and its two lists together are as long as its resident set |
| `WorldLemmas.RunKeeps` | src/privateer/sigaction_virtual_memory_manager.cpp:382-594 | The whole invariant holds after every run of every process: lists, stash, ids, protections, page contents, both tiers, metadata files, and no two processes sharing a stash file |
| `WorldLemmas.StepKeeps` | src/privateer/sigaction_virtual_memory_manager.cpp:252-308 | Each step of each process keeps that invariant: create, open, open_immutable, load, store, msync, snapshot, close, sudden death |
| `WorldLemmas.OtherProcess` | src/privateer/posix_block_storage.cpp:51-102 | A step of one process changes neither the invariant nor the contents of another, and leaves their stash files apart |
| `Access.HandlerKeeps` | src/privateer/sigaction_virtual_memory_manager.cpp:382-594 | The handler, called for an access the protection forbids: succeeds, keeps the invariant and the residency bound, changes no block's contents, leaves the access permitted, and below the budget evicts nothing |
| `Access.HandlerKeepsInvariantIff` | src/privateer/sigaction_virtual_memory_manager.cpp:419-439 | The handler keeps the invariant if and only if it is not called for a read of a clean or a write of a dirty resident block: it grants read-write on a read fault without marking the block dirty, and pushes a dirty block on the list twice |
| `Access.AccessKeeps` | src/privateer/sigaction_virtual_memory_manager.cpp:419-439 | An access with its fault, if it has one, meets the same promises; after a write the block is on the dirty list |
| `Access.LoadKeeps` | src/privateer/sigaction_virtual_memory_manager.cpp:382-594 | A load returns the byte of the flat array and changes no contents |
| `Access.StoreByteKeeps` | src/privateer/sigaction_virtual_memory_manager.cpp:382-594 | A store changes its own block to what the store instruction leaves and no other block |
| `Access.StoreIsPointUpdate` | src/privateer/sigaction_virtual_memory_manager.cpp:387-390 | In the flat array a store changes exactly the byte at its offset |
| `Access.AddressArithmetic` | src/privateer/sigaction_virtual_memory_manager.cpp:387-390 | An offset lies in the region exactly when its block does, and a block's address converts back to the block's index |
| `Access.FlatIsBlocks` | src/privateer/sigaction_virtual_memory_manager.cpp:387-390 | The flat array is the blocks laid end to end: at an offset that falls on byte r of block b it has byte r of the logical contents of b |
| `PagerLemmas.ListsPartitionResident` | src/privateer/sigaction_virtual_memory_manager.cpp:584-591 | The invariant in plain words: neither list repeats a block, no block is in both, together they are the resident set |
| `PagerLemmas.EvictKeeps` | src/privateer/sigaction_virtual_memory_manager.cpp:644-683 | Eviction finds exactly one victim when the budget is reached and none below it, clean blocks first, without touching the store while a block is clean; it never reaches the empty-list case and changes no block's contents |
| `Replacement.OldestGoesFirst` | src/privateer/sigaction_virtual_memory_manager.cpp:648-668 | Over every run of loads, stores and msyncs, a resident block stops being resident if and only if the next access faults on an absent block, the budget is reached, and the block is the one that came on its list longest ago, of the clean list if it has any and else of the dirty one |
| `Replacement.RunInOrder` | src/privateer/sigaction_virtual_memory_manager.cpp:584-590 | Over every such run both lists are sorted by when their blocks came on them, by a fault or by the store task of an msync in whatever order the tasks ran, latest first |
| `PagerLemmas.PresentWriteKeeps` | src/privateer/sigaction_virtual_memory_manager.cpp:419-439 | A write fault on a clean resident block makes it writable, consumes its stash file if it had one, and changes no contents and no residency |
| `PagerLemmas.FetchGivesBacking` | src/privateer/sigaction_virtual_memory_manager.cpp:446-533 | For every absent block the backing file exists, and reading it gives the block's logical contents |
| `PagerLemmas.MapInKeeps` | src/privateer/sigaction_virtual_memory_manager.cpp:440-592 | Bringing in an absent block, with room for it, keeps the invariant, every block's contents, and permits the access; a write consumes the stash file |
| `FlushLemmas.MSyncKeeps` | src/privateer/sigaction_virtual_memory_manager.cpp:252-308 | A complete flush: succeeds, nothing stays dirty or stashed on the pager's or the storage's side, no contents and no residency change, and every block, resident or not, equals the store file its id names, or zeros under the empty id |
| `FlushLemmas.MSyncDeduplicates` | src/privateer/sigaction_virtual_memory_manager.cpp:258-301 | Exact deduplication: a file is in the store after msync if and only if it was before or it is, in a tier in use, the hash of a block that was dirty or stashed |
| `FlushLemmas.MSyncOrderIrrelevant` | src/privateer/sigaction_virtual_memory_manager.cpp:258-301 | Whatever orders the parallel store tasks and commit tasks run in, blocks with equal contents included, store, ids and all else are equal and the clean lists are permutations of each other |
| `FlushLemmas.MSyncLeftovers` | src/privateer/sigaction_virtual_memory_manager.cpp:284-301 | A flush removes exactly this process's stash files, leaves the others alone, and draws no new stash name |
| `FlushLemmas.MSyncRecords` | src/privateer/posix_block_storage.cpp:31-49 | After a flush the blocks on record are those that were, as they were, and the dirty ones, new ones with the empty string (the outer variable is shadowed); commits record nothing |
| `FlushLemmas.MSyncForm` | src/privateer/sigaction_virtual_memory_manager.cpp:252-301 | Ids, protections and lists after a flush, block by block: the stashed ids from the stash files, the dirty ids from memory, all dirty pages read-only |
| `Flush.StoreTasksForm` | src/privateer/sigaction_virtual_memory_manager.cpp:258-281 | The store tasks in a given order equal storing those blocks one after the other; ids and protections change for exactly those blocks |
| `ParallelFor.MakeChunks` | src/privateer/sigaction_virtual_memory_manager.cpp:18-37 | For every count and number of hardware threads the ceiling-sized chunks with the early break are non-empty, consecutive and cover [0, count), with no more chunks than threads, and none above an equal share of the indices rounded up |
| `ParallelFor.EveryIndexOnce` | src/privateer/sigaction_virtual_memory_manager.cpp:33-48 | Under every schedule of the workers, each index in [0, count) is visited exactly once when all have joined |
| `ParallelFlush.SchedulesArePermutations` | src/privateer/sigaction_virtual_memory_manager.cpp:258-281 | Every schedule of the workers runs the tasks in a permutation of their list, so a statement about every permutation covers every schedule |
| `ParallelFlush.ConcurrentStoresAreTheFlush` | src/privateer/sigaction_virtual_memory_manager.cpp:258-281 | The store tasks as concurrent writers, their file operations interleaved in any way, leave the files of the sequential flush and no temporary file |
| `Publication.PublicationSafe` | src/privateer/posix_block_storage.cpp:378-484 | In every interleaving of any number of store_block calls split into create-temporary, existence check, write, rename or remove, each file under a hash name is a whole block that hashes to its name, and no existing file is lost or changed |
| `Publication.InterleavedIsSequential` | src/privateer/posix_block_storage.cpp:378-484 | When all writers have finished, in whatever interleaving, no temporary file remains and the files equal those of storing the blocks one by one |
| `Publication.KnownBlockIsNotWritten` | src/privateer/posix_block_storage.cpp:378-484 | In every interleaving a writer whose block already has its files in the tiers in use never comes to write or rename anything |
| `Publication.FlushFilesAreSequential` | src/privateer/posix_block_storage.cpp:31-49 | The files a flush's tasks leave are those of publishing the same blocks in sequence |
| `Store.StoreBlockKeeps` | src/privateer/posix_block_storage.cpp:31-49 | store_block keeps both tiers coherent, never changes or removes a file, and adds exactly the block's hash in every tier in use |
| `Store.StashBlockKeeps` | src/privateer/posix_block_storage.cpp:51-102 | stash_block keeps coherence, makes the block's stash file hold the block, in the file the block has or else in one file more, and touches no other block's stash file, no store file and no record |
| `Store.UnstashBlockKeeps` | src/privateer/posix_block_storage.cpp:104-119 | unstash_block keeps coherence and the contents of every other stash file |
| `Store.CommitIsUnstashThenStore` | src/privateer/posix_block_storage.cpp:157-241 | Both branches of commit_stash_block, hash there or not, one tier or two, come to unstashing the block and storing it, without a committed record |
| `Store.CommitKeeps` | src/privateer/posix_block_storage.cpp:121-242 | commit_stash_block succeeds for every stashed block, returns the hash of its stash file, adds exactly that hash, and leaves every other stash file |
| `Store.StashCommitIsStore` | src/privateer/posix_block_storage.cpp:51-102 | Stashing a block and committing it gives the id and the store that store_block gives, and consumes exactly that block's stash file |
| `Store.CommitIdsAre` | src/privateer/sigaction_virtual_memory_manager.cpp:284-300 | Whenever a block's commit task runs among the others, it records the id of the contents the block was stashed with |
| `Store.CommitAllConsumes` | src/privateer/posix_block_storage.cpp:121-242 | Committing any blocks in any order consumes exactly their stash files and index entries |
| `Store.FullPathNamesTheBlock` | src/privateer/posix_block_storage.cpp:244-263 | get_block_full_path names an existing file with the contents of the base file, and keeps the tiers coherent; after it the stash tier, if in use, has the file |
| `Tiers.TwoTiersIff` | src/privateer/posix_block_storage.cpp:486-492 | A data store has two tiers exactly when its stash base path differs from its base path |
| `Tiers.TiersStayCoherent` | src/privateer/posix_block_storage.cpp:31-49 | Over every run: each file is a whole block that hashes to its name, each file of the stash tier is in the base tier with equal contents, and every non-empty id of every process names a file that can be read and is right |
| `TierRaces.TiersCoherentIff` | src/privateer/posix_block_storage.cpp:157-241 | With existence checks, renames and copies of any number of processes as separate steps, and processes dying anywhere: the stash tier lies within the base tier if and only if everyone between the two tiers, alive or dead, has a block that is in the base tier |
| `TierRaces.FilesWholeIff` | src/privateer/posix_block_storage.cpp:281-287 | In the same interleavings every file under a hash name is a whole block that hashes to its name if and only if there is no name in the stash tier whose last rename or start of a copy was a copy that its maker, alive or dead, has not finished |
| `TierRaces.ReadOnlyBlockWholeIff` | src/privateer/posix_block_storage.cpp:281-287 | Of a block that is neither stored nor committed meanwhile, the file in the stash tier is whole if and only if no process is in the middle of copying it |
| `TierRaces.UsesAreRight` | src/privateer/posix_block_storage.cpp:244-263 | A process that reads the file get_block_full_path names gets the block it asked for, or a torn copy exactly when the last to put that name was a copy not finished, be its maker at work or dead |
| `TierRaces.UseExitsIff` | src/privateer/posix_block_storage.cpp:248-256 | Whatever runs between the check of a first use and its copy, it exits if and only if the name was free at the check and was taken since, or the base tier has no such block |
| `TierRaces.TornForEverIff` | src/privateer/posix_block_storage.cpp:281-287 | When a process dies in the middle of a copy, the torn file stays for ever, whatever the others do, if and only if none of them was past its check and about to rename onto the name |
| `TierRaces.EveryUseIsTorn` | src/privateer/posix_block_storage.cpp:244-263 | While it stays, every use of the block by another process reads the torn file |
| `TierRaces.AllFinishedIsCoherent` | src/privateer/posix_block_storage.cpp:157-241 | Once all processes are through, however they interleaved, files are whole and the tiers coherent |
| `TierRaces.AloneIsStore` | src/privateer/posix_block_storage.cpp:31-49 | Run alone, the steps of a store come to store_block in two tiers |
| `TierRaces.AloneIsCommit` | src/privateer/posix_block_storage.cpp:157-241 | Run alone, the steps of a commit come to commit_stash_block in two tiers |
| `TierRaces.AloneIsUse` | src/privateer/posix_block_storage.cpp:244-263 | Run alone, the steps of a first use come to get_block_full_path and reading the file, the failing copy included |
| `TierRaces.DeadCommitLeavesGap` | src/privateer/posix_block_storage.cpp:166-207 | After a process died between the rename and the base tier, a later commit of the same contents is done although the base tier lacks the block |
| `TierRaces.SecondUserReadsTornCopy` | src/privateer/posix_block_storage.cpp:281-287 | Of two first uses, the second can read the copy that the first is still making |
| `TierRaces.SecondUserExits` | src/privateer/posix_block_storage.cpp:248-256 | Of two first uses that both check before either copies, the second exits |
| `TierRaces.DeadCopyIsNotHealed` | src/privateer/posix_block_storage.cpp:157-241 | A run in which a process dies while copying a block up; a store and a commit of the same contents are then done, and a later use reads the torn file |
| `StorageObject.BlockStorage.constructor` | src/privateer/posix_block_storage.cpp:10-12 | A storage object starts with empty maps over the directories as they are |
| `StorageObject.BlockStorage.StoreInTier` | src/privateer/posix_block_storage.cpp:378-484 | The temp-file-and-rename steps on the object's fields come to publishing the block under its hash once, and leave no temporary file |
| `StorageObject.BlockStorage.StoreBlock` | src/privateer/posix_block_storage.cpp:31-49 | store_block on the object's fields is the store operation the lemmas are about, its shadowed hash included |
| `StorageObject.BlockStorage.StashBlock` | src/privateer/posix_block_storage.cpp:51-102 | stash_block on the object's fields is the stash operation the lemmas are about |
| `StorageObject.BlockStorage.UnstashBlock` | src/privateer/posix_block_storage.cpp:104-119 | unstash_block refuses exactly the blocks with no stash entry and otherwise removes file and entry |
| `StorageObject.BlockStorage.CommitStashBlock` | src/privateer/posix_block_storage.cpp:121-242 | commit_stash_block exits exactly when there is no stash file, and otherwise is the commit operation the lemmas are about |
| `StorageObject.BlockStorage.GetBlockFullPath` | src/privateer/posix_block_storage.cpp:244-263 | get_block_full_path names the front tier, exiting exactly when the file has to be copied up and is in neither tier |
| `StorageObject.BlockStorage.CopyToStash` | src/privateer/posix_block_storage.cpp:281-287 | copy_to_stash succeeds exactly when either tier has the file, and copies only what the stash tier lacks |
| `HexHash.ComputeHash` | include/privateer/utility/sha256_hash.hpp:13-23 | compute_hash yields the 64-character lower-case encoding of the digest |
| `HexHash.HexPair` | include/privateer/utility/sha256_hash.hpp:18-20 | Digits 2i and 2i+1 of the encoding read in base sixteen give byte i of the digest |
| `HexHash.HexIsLowerCase` | include/privateer/utility/sha256_hash.hpp:18-20 | Every character is a decimal digit or one of a to f |
| `HexHash.HexInjective` | include/privateer/utility/sha256_hash.hpp:18-20 | Different digests have different encodings |
| `HexHash.HexOfZeros` | src/privateer/virtual_memory_manager_base.cpp:7-8 | The reserved empty id is the encoding of the all-zero digest |
| `HexHash.DigestsMakeSoundHash` | include/privateer/utility/sha256_hash.hpp:13-23 | The model's assumptions on ids hold exactly when the digests of the run's blocks are collision-free and never all zero |
| `HexHash.HexHashesAreIds` | src/privateer/sigaction_virtual_memory_manager.cpp:617-618 | Whatever the contents, compute_hash yields an id of 64 characters, as update_metadata relies on when it copies it |
| `HexHash.SubdirectoryOfDigest` | src/privateer/posix_block_storage.cpp:362-367 | The subdirectory an id is filed under is the low ten bits of the first three bytes of its digest: encoding and parsing undo each other |
| `Metadata.OverlayRoundTrip` | src/privateer/sigaction_virtual_memory_manager.cpp:607-629 | Writing n records over any older well-formed file and opening it gives those n records, then the older file's own, then empty ids to capacity |
| `Metadata.EncodedRecord` | src/privateer/sigaction_virtual_memory_manager.cpp:611-620 | Characters 64i to 64i+63 of what update_metadata writes are the id of block i, whatever follows |
| `Metadata.FileIsItsRecords` | src/privateer/sigaction_virtual_memory_manager.cpp:186-203 | Writing back all the records a well-formed file loads to gives the file itself, character by character |
| `Metadata.RewriteIsInvisible` | src/privateer/sigaction_virtual_memory_manager.cpp:607-629 | Writing back ids a file already loads to, up to any record, changes nothing about what it loads to |
| `Metadata.FillBuffer` | src/privateer/sigaction_virtual_memory_manager.cpp:611-620 | The nested loops of update_metadata fill the buffer with the encoded records |
| `Metadata.ParseIds` | src/privateer/sigaction_virtual_memory_manager.cpp:186-203 | The two loops of the open constructor give the file's records followed by empty ids |
| `WorldLemmas.RecoveredIds` | src/privateer/sigaction_virtual_memory_manager.cpp:596-642 | Opening after update_metadata gives block i its current id if i or a block above it is resident, and else what the file had for it |
| `Recovery.OpenShowsRecovered` | src/privateer/sigaction_virtual_memory_manager.cpp:186-203 | Opening a version, read-only or not, shows block for block what its metadata file recovers |
| `Recovery.SyncRecovers` | src/privateer/sigaction_virtual_memory_manager.cpp:596-642 | After msync block i is recovered as it is live if i or a block above it is resident, and else as the version held it before |
| `Recovery.SyncRecoversAllIff` | src/privateer/sigaction_virtual_memory_manager.cpp:596-642 | msync saves the live contents if and only if each block with no resident block at or above it was already saved as it is |
| `Recovery.SnapshotRecovers` | src/privateer/sigaction_virtual_memory_manager.cpp:310-360 | A snapshot recovers block i as it is live if i or a block above it is resident, and else as zeros |
| `Recovery.SnapshotRecoversAllIff` | src/privateer/sigaction_virtual_memory_manager.cpp:310-360 | A snapshot saves the live contents if and only if each block with no resident block at or above it is all zeros |
| `Crash.DeathChangesNoVersion` | src/privateer/sigaction_virtual_memory_manager.cpp:252-308 | A process that dies inside msync, close or snapshot, with any of its store and commit tasks done in any order, changes no version: each opens as before, the one it was writing included, on ids that are all stored, and recovers block for block what it did |
| `Crash.DeathStoresTasksDone` | src/privateer/sigaction_virtual_memory_manager.cpp:258-301 | Such a death in msync or close leaves, besides the files there were, exactly those of the blocks whose store or commit tasks were done |
| `Crash.DeathLeavesStash` | src/privateer/sigaction_virtual_memory_manager.cpp:284-301 | Of the stash files exactly those of the commits done are gone, the others are as they were |
| `Crash.SnapshotDeathDisk` | src/privateer/sigaction_virtual_memory_manager.cpp:310-360 | A death in a snapshot leaves the block store as one in msync does; in a refused one it leaves it alone |
| `Crash.ReopenAfterDeath` | src/privateer/sigaction_virtual_memory_manager.cpp:186-203 | A process that opens any version after such a death sees what the version held before |
| `Crash.InterruptedSnapshotIsClosed` | src/privateer/sigaction_virtual_memory_manager.cpp:333-356 | A snapshot interrupted before its capacity file was written makes no version that can be opened, whatever is left of its metadata file |
| `Crash.ClosedStaysClosed` | src/privateer/sigaction_virtual_memory_manager.cpp:319-324 | Nor does its name become one over any run, snapshots to that name being refused, until a version is created under it with leave to overwrite |
| `FreshRegion.CreatedIsFresh` | src/privateer/sigaction_virtual_memory_manager.cpp:74-91 | A created region that fits its budget starts covered (no id but for resident blocks, nothing stashed) and over an empty metadata file |
| `FreshRegion.RunStaysCovered` | src/privateer/sigaction_virtual_memory_manager.cpp:644-683 | Over every run of all processes a covered region evicts nothing and stays covered, whoever opens its version |
| `FreshRegion.RunStaysFresh` | src/privateer/sigaction_virtual_memory_manager.cpp:596-642 | Over every run in which nobody else opens the region's version for writing, its metadata file has no id but for its resident blocks, readers of the version and their msyncs included |
| `FreshRegion.CoveredSnapshotRecovers` | src/privateer/sigaction_virtual_memory_manager.cpp:310-360 | A snapshot of a covered region recovers every block |
| `FreshRegion.SnapshotRoundTrip` | src/privateer/sigaction_virtual_memory_manager.cpp:310-360 | Any run of all processes, a snapshot of a covered region, any later run that does not write-open or recreate the snapshot: it recovers block for block what the region held when it was taken |
| `FreshRegion.OpenedSnapshotIsWhatWasSaved` | src/privateer/sigaction_virtual_memory_manager.cpp:125-203 | The same for the process that opens the snapshot at the end: its region holds what was saved |
| `FreshRegion.FreshSyncRecovers` | src/privateer/sigaction_virtual_memory_manager.cpp:252-308 | msync of a covered region saves every block in its own version, when nobody else has it open for writing |
| `FreshRegion.CloseAndReopen` | src/privateer/sigaction_virtual_memory_manager.cpp:362-380 | Closing such a region and opening its version again shows what was there |
| `LostBlock.SnapshotLosesEvictedBlock` | src/privateer/sigaction_virtual_memory_manager.cpp:600-608 | With a budget of one block, writing block 1, then block 0, and taking a snapshot loses block 1 |
| `LostBlock.LosingRun` | src/privateer/sigaction_virtual_memory_manager.cpp:600-608 | That run written out from an empty disk, each step shown to be possible, for every two bytes of which the first is not zero |
| `LostBlock.LosingRunExists` | src/privateer/sigaction_virtual_memory_manager.cpp:600-608 | The same run with blocks of one byte and ids given, in one tier and in two, with no assumption left |
| `Isolation.VersionIsImmutable` | src/privateer/sigaction_virtual_memory_manager.cpp:313-340 | Over every run of every process that does not write-open or recreate a protected version, what opening it returns does not change |
| `Isolation.SnapshotIsProtected` | src/privateer/sigaction_virtual_memory_manager.cpp:313-340 | A snapshot just taken is protected |
| `Steps.StepLeavesFile` | src/privateer/sigaction_virtual_memory_manager.cpp:313-340 | No step but creating a version over it with leave to overwrite, or msync and close of a process that has it open, changes its files: metadata goes only to the live path, or to a snapshot's while it is taken |
| `Steps.CreateRefused` | src/privateer/virtual_memory_manager_base.cpp:70-75 | create without leave to overwrite, under a name that is taken, ends the process and leaves versions and disk alone |
| `Steps.OpenRefused` | include/privateer/privateer.hpp:354-358 | So does opening a version that is not there or lacks a file |
| `Steps.OpenImmutableRefused` | include/privateer/privateer.hpp:245-281 | open_immutable fails when its source cannot be opened or its target is taken; it leaves a new directory, with the metadata file alone if at all, exactly when the target was free and the source is there but lacks a file |
| `Steps.StepKeepsReader` | src/privateer/sigaction_virtual_memory_manager.cpp:252-308 | A read-only session keeps the ids it was opened with, whatever any process does |
| `Isolation.OpenImmutableProtectsSource` | include/privateer/privateer.hpp:241-284 | open_immutable leaves a protected source protected, and starts from its contents under another path, writable, with the budget asked for |
| `ReadOnly.ReaderIsUndisturbed` | src/privateer/sigaction_virtual_memory_manager.cpp:414-417 | Over every run of all processes, writers of the same version included, a read-only session that goes on stays read-only, has nothing dirty and nothing stashed, keeps its ids, and sees exactly what it saw when it was opened |
| `ReadOnly.StepSameBase` | src/privateer/sigaction_virtual_memory_manager.cpp:440-592 | At any point of a run of all processes, no step of a read-only session, eviction, msync, snapshot and close included, changes the base tier or any stash file |
| `ReadOnly.StepKeepsVersionIff` | src/privateer/sigaction_virtual_memory_manager.cpp:596-642 | A step of a read-only session among other processes changes what a version's metadata file loads to if and only if it is msync or close on that version and for some block, resident or below a resident one, the session's id is not the file's |
| `Isolation.ReaderSyncKeepsVersionIff` | src/privateer/sigaction_virtual_memory_manager.cpp:596-642 | msync of a read-only session leaves its version's ids as they are if and only if the session's ids of the resident blocks and all blocks below them are the file's |
| `ReadOnly.ReadOnlySessionIsInert` | src/privateer/sigaction_virtual_memory_manager.cpp:414-417 | A session opened read-only, whoever else has the version open, and run to any point while the others pause: nothing dirty or stashed, the base tier and the stash files as before, and the metadata file of every version loads to the same ids, even if it has grown |
| `Rollback.ReaderUndoesSave` | src/privateer/sigaction_virtual_memory_manager.cpp:252-308 | A run in which a reader's msync undoes a writer's: the version is opened read-only and a block loaded, the writer stores and saves, the reader syncs; the version then holds zeros again, for every byte but zero |
| `Rollback.RollbackExists` | src/privateer/sigaction_virtual_memory_manager.cpp:252-308 | That run with blocks of one byte and ids given, in one tier and in two, with no assumption left |
| `ReadOnly.LoadSameBase` | src/privateer/sigaction_virtual_memory_manager.cpp:440-592 | A fault of a read-only session writes no stash file and adds nothing to the base tier |
| `WorldLemmas.ReadOnlyWriteStep` | src/privateer/sigaction_virtual_memory_manager.cpp:414-417 | A store to a read-only region always ends the process, whatever is resident |
| `WorldLemmas.SnapshotRefused` | src/privateer/sigaction_virtual_memory_manager.cpp:319-324 | A snapshot to a version that has a metadata file changes nothing at all |
| `RegionObject.Region.constructor` | src/privateer/sigaction_virtual_memory_manager.cpp:94-113 | The region both constructors build: nothing mapped, nothing listed, the ids given |
| `RegionObject.Region.EvictIfNeeded` | src/privateer/sigaction_virtual_memory_manager.cpp:644-683 | evict_if_needed on the object's lists and pages is the eviction the lemmas are about |
| `RegionObject.Region.DropPage` | src/privateer/sigaction_virtual_memory_manager.cpp:669-681 | Taking the page away: no access, zero-filled, not resident |
| `RegionObject.Region.FaultOnResident` | src/privateer/sigaction_virtual_memory_manager.cpp:419-439 | The resident branch on the object's fields is the step the lemmas are about |
| `RegionObject.Region.ReadBacking` | src/privateer/sigaction_virtual_memory_manager.cpp:446-533 | Choosing and reading the backing file: stash file, else store file, else the zero page |
| `RegionObject.Region.MapBlockIn` | src/privateer/sigaction_virtual_memory_manager.cpp:440-592 | The absent branch after eviction on the object's fields is the step the lemmas are about |
| `RegionObject.Region.Handler` | src/privateer/sigaction_virtual_memory_manager.cpp:382-594 | The handler on the object's fields is the fault step the lemmas are about, exits included |
| `RegionObject.Region.StoreDirtyBlock` | src/privateer/sigaction_virtual_memory_manager.cpp:258-281 | One store task on the object's fields |
| `RegionObject.Region.StoreDirtyBlocks` | src/privateer/sigaction_virtual_memory_manager.cpp:258-282 | The workers over the chunks of the dirty list, any one of them making the next call, come to the store tasks in some permutation of the list, and the list is cleared |
| `RegionObject.Region.CommitStashedBlock` | src/privateer/sigaction_virtual_memory_manager.cpp:286-300 | One commit task on the object's fields, exiting exactly without a stash file |
| `RegionObject.Region.CommitStashedBlocks` | src/privateer/sigaction_virtual_memory_manager.cpp:284-302 | The workers over the chunks of the stash set, likewise, come to the commit tasks in some order, each block once |
| `RegionObject.Region.UpdateMetadata` | src/privateer/sigaction_virtual_memory_manager.cpp:596-642 | update_metadata on the version directory is the metadata write the recovery lemmas are about, exiting exactly without a file |
| `RegionObject.Region.FlushBlocks` | src/privateer/sigaction_virtual_memory_manager.cpp:252-302 | The two parallel loops of msync are the flush the lemmas are about, in an order the workers' scheduling gave |
| `RegionObject.Region.MSync` | src/privateer/sigaction_virtual_memory_manager.cpp:252-308 | msync writes the metadata of the version the region is directed to, and no other |
| `RegionObject.Region.Snapshot` | src/privateer/sigaction_virtual_memory_manager.cpp:310-360 | snapshot returns false exactly when the version has a metadata file, and then changes nothing; else it redirects one msync to the new version, which is then complete with the region's capacity, and directs the region back |
| `RegionObject.Privateer.Create` | include/privateer/privateer.hpp:184-207 | create returns no region exactly when the version exists and overwriting is not allowed, and then touches no directory; else it builds version and region as the session step does, writable, with the budget asked for |
| `RegionObject.Privateer.Open` | include/privateer/privateer.hpp:345-380 | open succeeds exactly when the version has a metadata and a capacity file, and builds the region the session step builds, with the mode and budget asked for |
| `RegionObject.Privateer.OpenImmutable` | include/privateer/privateer.hpp:241-284 | open_immutable succeeds exactly when the source has its files and the target is free; it copies the source's files to a new version and opens the copy for writing, with the budget asked for; a source that lacks a file leaves the new directory behind |
| `EventQueue.EveryInterleavingIsSafe` | include/privateer/utility/event_queue.hpp:57-130 | Under every interleaving of adder, workers, spurious wake-ups: events dequeued then queued are those enqueued, in order; while a worker is blocked no more events are queued than workers are on their way; the waiting count is right; no fault address is queued twice; each queued one is in flight |
| `EventQueue.StepKeepsQueue` | include/privateer/utility/event_queue.hpp:80-110 | Each step keeps order, waiting count and the no-missed-wake-up invariant |
| `EventQueue.StepKeepsInFlight` | src/privateer/uffd_virtual_memory_manager.cpp:551-558 | With one adder that looks before it enqueues, no fault address is queued twice or queued while a worker holds it, and each is in flight until removed |
| `EventQueue.InFlightIff` | include/privateer/utility/event_queue.hpp:57-119 | Over every interleaving an address is in flight if and only if an event for it is queued, a worker has one in hand, or a worker skipped one |
| `EventQueue.RemovedCanComeBack` | include/privateer/utility/event_queue.hpp:113-119 | Once a worker has removed its event, the next fault at that address passes the look before enqueue |
| `EventQueue.AbandonedForEver` | src/privateer/uffd_virtual_memory_manager.cpp:408-410 | A worker that skips a fault on a block that is present does not remove it: over every continuation the address stays in flight and is never queued or held again |
| `EventQueue.OrderedByAddress` | include/privateer/utility/fault_event.hpp:12-14 | The order of the in-flight set is a strict weak order whose ties are equal addresses: the set is keyed by address alone |
| `EventQueue.Queue.constructor` | include/privateer/utility/event_queue.hpp:12-29 | A queue starts empty, with nothing in flight and nobody waiting |
| `EventQueue.Queue.Enqueue` | include/privateer/utility/event_queue.hpp:57-78 | enqueue appends the event, and puts it in flight unless its address is zero or already there |
| `EventQueue.Queue.Found` | include/privateer/utility/event_queue.hpp:121-130 | found tells whether the address is in flight |
| `EventQueue.Queue.RemoveProcessed` | include/privateer/utility/event_queue.hpp:112-119 | remove_processed takes exactly that address out of flight, whether it was in or not, and leaves queue and counts alone |
| `EventQueue.Queue.Dequeue` | include/privateer/utility/event_queue.hpp:80-110 | dequeue, up to its first wait: counts the worker as waiting, takes the front if there is one, and else signals the idle condition exactly when the queue is idle now and somebody waits for that |
| `EventQueue.Queue.AfterWait` | include/privateer/utility/event_queue.hpp:88-109 | dequeue after a wake-up: takes the front, or waits on, signalling likewise |
| `EventQueue.Queue.WaitForIdle` | include/privateer/utility/event_queue.hpp:132-142 | wait_for_idle, up to its first wait: counts the thread unless the queue is idle already |
| `EventQueue.Queue.AfterIdleWait` | include/privateer/utility/event_queue.hpp:137-140 | wait_for_idle after a wake-up: leaves exactly when the queue is idle |
| `EventQueue.NeverForgottenIff` | include/privateer/utility/event_queue.hpp:80-142 | For every number of workers and of threads in wait_for_idle: no such thread ever waits while the queue is idle, over all interleavings, if and only if there is at most one such thread or no worker |
| `EventQueue.LeavesWhenIdle` | include/privateer/utility/event_queue.hpp:132-142 | Over every interleaving a thread that enters wait_for_idle or looks again after a wake-up leaves it if and only if the queue is empty and every worker is waiting |
| `EventQueue.ForgottenUntilDisturbed` | include/privateer/utility/event_queue.hpp:88-93 | With workers and two such threads or more there is a run after which the second waits although the queue is idle, and goes on waiting over every continuation in which no event is enqueued and no wait ends on its own |
| `EventQueue.AddPageFaultEvent` | src/privateer/uffd_virtual_memory_manager.cpp:551-558 | An event goes to the queue of its block, unless its address is in flight there; other queues are untouched |
| `EventQueue.QueueOfBlock` | src/privateer/uffd_virtual_memory_manager.cpp:551-558 | Every address of block b goes to queue b modulo the number of queues |

## Left out

- The userfaultfd engine's fault handler, eviction and msync: kernel ioctls. Its event queue and the guard before enqueue are modelled; nothing is claimed about liveness there.
- Compressed blocks: zstd is foreign code, and the commit path differs.
- The digest itself, UUID generation, logging, environment variables, `/dev/null` handling, descriptor leaks, short writes, failing system calls.
- Data races on the map of committed blocks during parallel store tasks: each insert is one step.
- That blocked workers, idle waiters and writers ever finish.
- Directory creation and the files that hold block path and block size: a version is its metadata and its capacity, and files are keyed by tier and id. `HexHash.SubdirectoryOfDigest` covers the subdirectory's number.
- A block store opened with another block size than the version was written with.
- Tiers.TiersStayCoherent: is about processes that interleave between whole operations, and die between these or between the tasks of a flush; the file operations inside a task are in `TierRaces`, on the files alone and without the pagers.
- A death inside create or open_immutable, or inside the one write of update_metadata.
- The dispatcher gets the size asked for, not the rounded one (include/privateer/privateer.hpp:190), so a fault in the last, partial block's remainder ends the process; here the region is all of its capacity. A size of zero makes mmap fail and the process exit after the version was made; here it is a region of no blocks.
- A missing source directory makes open_immutable throw a C string, which is modelled as the process not getting a region.
- The signal dispatcher, factories, the C interface, the smartcache placeholder, and the superseded headers.
- RegionObject.Region.FlushBlocks: its workers interleave in whole tasks; file operations of concurrent store tasks are in `ParallelFlush.ConcurrentStoresAreTheFlush`.
- Metadata.ParseIds: asks that the file be no longer than the capacity's records; the source writes out of bounds exactly when it is longer. A partial last record within that is read as empty, as in the source.
- RegionObject.Privateer.Open: asks the same of the file, which `WorldLemmas.RunKeeps` maintains. An exit is a null result.
- RegionObject.Region.Handler: asks that the faulting address lie in the region, as the dispatcher arranges; the check in the source is commented out.
- StorageObject.BlockStorage.StoreInTier: without the flag that skips the write, which every caller sets.
