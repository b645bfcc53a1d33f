# SimCompression, modelled and verified

SimCompression is a deduplicating backup store. A file is cut into chunks where its content says so; each
chunk is fingerprinted and stored once, in an append-only log of container files, with a count of its
references; a recipe lists the chunks of the file. Similar chunks may later be replaced in place by deltas
against a base chunk, small containers are compacted, and chunks without references are collected. The
bundled MongoDB driver stores large values as GridFS files, cut into chunks of equal size.

This project models these parts and proves what they promise.

- `Bytes`, `Names`, `Log`, `Store`, `Compaction`, `Deltas`, `DeltaPass`, `RefCounts`, `Restore`:
  the store as a value, and what each operation does to it.
- `Vault`, `Runs`, `WholeFile`: one invariant of all runs, and from it that a file comes back. `RunLimits`,
  `PendingRuns`: what the hypotheses on runs amount to, and that saved deltas stay installable. `SampleRuns`,
  `FailingRuns`, `Samples`: a run that does everything, runs that fail, and data for them.
- `Containers`, `StorageCore`, `Manager`, `DeltaCompressor`: the program's objects, updating buffers, files
  and databases in place, each method proved to be the step on values that the lemmas are about. `Program`:
  these objects together, with a file backed up, any commands that may be given, and the file restored.
  `CommandLists`, `FullList`, `FullRun`: which commands may be given: saving any number of deltas and installing them,
  and the list that main goes through, performed by a program that starts with nothing.
- `RollingHash`, `Cuts`, `Grouping`, `FileIndex`, `Chunker`, `IndexOfFile`: the table-driven rolling hash
  against the polynomial it stands for, the chunk loop against the greedy cut rule, and the three-level
  index against the rule that groups chunks into segments and segments into containers.
- `Aligner`: the window search, and the region machine with its mode variables against one without.
- `GridFS`: the buffered writer and reader, which undo each other (sections "File Upload" and "File
  Download" of the MongoDB GridFS Specification).

`dafny verify dfyconfig.toml` checks the whole project.

## How the code was read

- Saving a chunk replaces NUL by 0x80 in all but its last two bytes (src/storageCore.cpp:285-288). What comes
  back is therefore `San(data)`; the loop bound, unsigned in the source, is taken as max(0, length - 2).
- The rolling hash is not initialised before the first chunk (src/chunker.cc:318); it starts at 0, the
  value it is given after every cut.
- `deleteChunk` has no return statement after a successful insert (src/storageCore.cpp:391-392); it returns true.
- The number recorded as the last chunk of the final segment is taken after the increment
  (src/chunker.cc:645-647), so it is one past the last chunk; every other segment's end is inclusive.
- The limits, divisors and digests of the upper index levels are parameters. As an `int`, the maximum of containers
  (include/chunker.hpp:33) overflows; where it wraps, every container closes at the minimum, which is a maximum of 0 here.
- Counts are 32 bits wide and wrap. The powers, the removal table and the hash are computed in 32 bits, without
  overflow, and stored in 32 and 16.
- The chunker looks fingerprints up as C strings (src/chunker.cc:375, 393, 611); the byte behind the
  fingerprint array is taken to be NUL.
- `delta_create`, `delta_apply`, the fingerprint and the digest of a segment are function parameters. Fingerprints are taken to
  be injective on the chunks seen: `content` maps each to the bytes it stands for.
- Disk directories and databases are maps, and a database iterator is a snapshot of the keys in some order.
- `Container` and `DeltaContainer` are one class here. Only the former records sizes (src/storageCore.cpp:481,
  src/compressor.cc:357-367), so the storage core does that beside the call, and the delta store never does:
  compaction does not see delta containers, and pending deltas stay readable across it.
- `compress` only accounts sizes and never saves a delta. In runs pending deltas are an input (`PendDeltas`);
  `Program.SaveDelta` is one iteration of its first loop with the missing call behind the guard, under the
  hypotheses that `delta_apply` undoes `delta_create` and that references stay without a cycle.
- A container file that cannot be opened is noticed by nobody in the constructors and in the delta pass; the
  buffer, where it is filled from such a file, is taken to be zeros.
- src/main.cc calls neither `GC` nor `deleteRecipeAndChunk`; `Program` gives them as commands beside the others. Where
  main makes a second core without deleting the first (src/main.cc:188), the store is closed first here.
- A manager is used while the container it read from the configuration is the open one, as in src/main.cc,
  and the delta pass runs on a core that has not read yet, as there.
- Advancing the cursor past the last chunk document is not checked by the downloader (include/mongocxx/gridfs/downloader.cpp:105-107)
  and has no defined result; here it is the outcome `PastLastChunk`.

## What does not hold, and exactly when it does

- A chunk whose fingerprint contains a NUL is never found again. Its count stays behind, and it can be collected
  while a recipe still needs it (`NulFingerprintIsLost`). Counts equal references exactly when the
  fingerprint has no NUL or is new (`DedupCountsExactly`).
- A file comes back unchanged exactly when no chunk has a NUL outside its last two bytes (`FileComesBack`).
- Compaction rewrites the NULs of deltas too, so it changes stored bytes exactly when one it moves has a NUL outside its
  last two bytes (`RewriteLosslessExactlyWhenClean`). `DeltaIsSpoilt` is a run where a chunk is lost by it.
- The guard before saving a delta compares with the restored chunk, not with its stored bytes. A second delta longer
  than the first changes other chunks for some bytes exactly if it reaches their records, as offsets and lengths
  show before it is installed (`LongDeltaSparesExactly`; `DeltaReaches` says to what; it does in `LongDeltaOverwrites`).
- A delta installed in a cached container is not what the next read returns, unless the chunk began with its
  bytes (`ReadAfterInstall`, `StaleRead`).
- A delta holds no reference to its base. Collection is safe exactly when every referenced delta's base is
  referenced too (`BasesKeptExactly`); `BaseIsLost` is a run where it is not and a chunk is lost.
- Nor does a pending delta. Collection keeps the bases of all of them exactly if these are referenced
  (`PendingBasesKeptExactly`); `PendingBaseIsLost` is a run where one is not, and installing its delta loses the chunk.
- A chunk stored as a delta whose fingerprint has a NUL is overwritten with raw bytes when it is backed up
  again (`ResavedContents`), exactly unless they read like the delta (`DedupKeepsContentsExactly`);
  `DeltaIsOverwritten` is a run where the chunk is lost by it.
- Deleting a part of a recipe drops all of it and leaves the other entries counted (`PartialDropExactly`).
- Collection keeps the counted exactly when no fingerprint has a positive multiple of 2^32 references
  (`CollectRemovesExactlyUnreferenced`; `WrappedCountIsLost` has 2^32).
- The anchor test on the 16-bit hash agrees with the test on the polynomial exactly when the mask has at most 16 bits
  or the window is one byte (`NarrowingInvisibleExactly`, failing on `WideWindow`), and the cut condition also
  when only one chunk size is possible (`SameCutsExactly`).
- Without a left-over chunk, the last chunks of a file are in no segment unless the last one closed one
  (`IndexCoverage`, failing in `OneChunkUncovered`); the last segments are in no container unless the last one
  closed one (`ContainerCoverage`, failing in `OneSegmentUncovered`).

## Model

| member | source | states |
|---|---|---|
| `Bytes.SanFixesExactlyClean` | src/storageCore.cpp:285-288 | The NUL rewriting changes nothing exactly on data without NULs outside its last two bytes; its result is always such data, so a second pass changes nothing |
| `Bytes.SanAt` | src/storageCore.cpp:285-288 | A NUL becomes 0x80 unless it is one of the last two bytes; every other byte stays |
| `Bytes.CKeyFaithfulExactlyWithoutNul` | src/chunker.cc:375 | Reading a fingerprint as a C string keeps it exactly if it contains no NUL; otherwise it gets shorter |
| `Bytes.CKeyStopsAtNul` | src/chunker.cc:375 | What is kept is what comes before the first NUL |
| `Names.NextIsPermutation` | src/storageCore.cpp:432 | The name after a rollover is a rearrangement of the name before |
| `Names.NextIsLarger` | src/storageCore.cpp:432 | A rollover that does not wrap gets a strictly larger name |
| `Names.NextIsLeast` | src/storageCore.cpp:432 | Of all larger rearrangements the rollover takes the least, so no name is skipped |
| `Names.LastIsLargest` | src/storageCore.cpp:432 | The names start over exactly when no larger rearrangement is left |
| `Log.MadeRoomKeeps` | src/storageCore.cpp:426-436 | A rollover never overwrites an existing container, leaves the bytes of every record alone, and leaves room below the maximum for what is to be placed |
| `Log.AppendStores` | src/storageCore.cpp:425-439 | Placing bytes keeps all regions inside their containers and disjoint, stores the bytes under the given fingerprint, and changes the bytes of no other |
| `Log.AppendPlaces` | src/storageCore.cpp:425-439 | Bytes that fit below the maximum go behind the open bytes, under the same name; otherwise the open bytes go to their file and the new ones start the next container |
| `Log.Relocated` | src/storageCore.cpp:297-305 | A change that gives one fingerprint a new region disjoint from all others changes the bytes of that fingerprint only |
| `Log.SourcesAgree` | src/storageCore.cpp:441-471 | Read cache, open buffer and file give the same bytes for every record; a read changes only the cache, which then holds the sealed container asked for |
| `Log.SlotsIgnoreCache` | src/storageCore.cpp:441-471 | What the index means does not depend on the read cache |
| `Log.ReopenKeeps` | src/storageCore.cpp:29-65 | Closing and opening again keeps the layout, the open container and the bytes of every record, with the open container also in its file and an empty cache |
| `Store.SaveChunkStores` | src/storageCore.cpp:264-308 | Saving keeps the store sound, stores the rewritten bytes under the fingerprint and changes no other; an existing record keeps its length and counts |
| `Store.SaveChunkAccounts` | src/storageCore.cpp:305 | Saving keeps the recorded size of every sealed container, and the fill level of the open one, equal to the bytes live in it, if the record saved over was no longer accounted for; otherwise they stay upper bounds |
| `Store.SaveChunkReady` | src/storageCore.cpp:426-436 | One save uses up at most one container name |
| `Store.LiveBytesSub` | src/manager.cc:220-248 | Dropping records can only lower the bytes live in a container, and keeping all keeps them: why sizes become upper bounds after a collection |
| `Containers.Container.SaveToFile` | src/storageCore.cpp:474-480 | Writes exactly the bytes in use to the named file and touches no other; the size is recorded by the callers |
| `Containers.ContainerLog.constructor` | src/storageCore.cpp:29-52 | Starts from the configured container and fill level, or from the first name and nothing; the cache is empty |
| `Containers.ContainerLog.WriteContainer` | src/storageCore.cpp:425-439 | Places the bytes behind those in use if together they stay below the maximum, leaving name and files alone; otherwise writes the container to its file, takes the next name and places them at its start; returns where |
| `Containers.ContainerLog.Append` | src/storageCore.cpp:425-439 | Placing and taking into use refines the append-only log, here and in the delta store, with a new container exactly if the bytes do not fit |
| `Containers.ContainerLog.ReadContainer` | src/storageCore.cpp:441-471 | Returns the bytes of the record from the cache, the open buffer or the file, in that order, or fails if there is none; afterwards the cache is as the log says |
| `StorageCore.Sanitise` | src/storageCore.cpp:285-288 | The in-place loop rewrites the buffer as the pure form says and touches nothing beyond the length |
| `StorageCore.StorageCore.constructor` | src/storageCore.cpp:29-52 | The store starts from the configuration file and the last container, or from scratch |
| `StorageCore.StorageCore.Close` | src/storageCore.cpp:54-65 | The destructor remembers the open container and writes it and its size; nothing else changes |
| `StorageCore.StorageCore.SaveChunk` | src/storageCore.cpp:264-308 | Saving a chunk, with its rollover, size record and database entry, is the step on store values that the lemmas are about |
| `StorageCore.StorageCore.RetriveChunk` | src/storageCore.cpp:352-375 | Returns the stored bytes of a known fingerprint as they are, deltas included, and fails for an unknown one |
| `StorageCore.StorageCore.RestoreChunk` | src/storageCore.cpp:310-351 | The recursion over delta bases terminates on acyclic references and returns the decoded bytes, without changing contents; it fails exactly for an unknown fingerprint |
| `StorageCore.StorageCore.DeleteChunk` | src/storageCore.cpp:376-397 | Takes one reference from a known fingerprint, in 32 bits, and fails for an unknown one |
| `StorageCore.StorageCore.CheckRecipeStatus` | src/storageCore.cpp:398-423 | A recipe is stored whole, behind the entries already there |
| `StorageCore.StorageCore.RestoreEntry` | src/storageCore.cpp:187-218 | An entry is restored exactly if its fingerprint is known and its bytes have the recorded size |
| `StorageCore.StorageCore.RestoreRecipeAndChunk` | src/storageCore.cpp:167-223 | Returns the chunks of the range in order, up to the first entry that fails, and succeeds exactly if none does |
| `Restore.RestoresUpToFailure` | src/storageCore.cpp:187-218 | Entries are restored as far as their fingerprints are known and their bytes have the recorded size; the range stops at the first for which this fails |
| `StorageCore.StorageCore.DeleteRecipeAndChunk` | src/storageCore.cpp:224-263 | Takes one reference for every entry of the range and then drops the recipe; stops at an unknown fingerprint with the recipe kept |
| `StorageCore.Reopen` | src/storageCore.cpp:29-65 | Destructor followed by constructor gives the reopened store |
| `Compaction.RelocateStores` | src/manager.cc:193-202 | Reading a chunk back and saving it again rewrites its NULs once, keeps its length and counts, changes no other chunk and puts it in a container that is not to be deleted, even across a rollover |
| `Compaction.RelocateAllUnderway` | src/manager.cc:176-208 | The invariant of the pass over all fingerprints: exactly those visited have moved out, the accounting is kept, and every chunk can be traced to a container |
| `Compaction.FilesDeleted` | src/manager.cc:210-215 | Deleting containers that no entry names loses nothing |
| `Compaction.RewriteStores` | src/manager.cc:140-219 | After compaction every fingerprint is still there with length and counts, no entry names a deleted container, moved bytes are rewritten once and others untouched, and sizes stay accounted for |
| `Compaction.RewriteLosslessExactlyWhenClean` | src/manager.cc:193-202 | Compaction changes no stored byte exactly if every chunk or delta it moves has no NUL outside its last two bytes |
| `Compaction.RewriteDeletes` | src/manager.cc:143-215 | Every container but the open one that is recorded with at most 8300000 bytes loses its file and its size; every other file, and every other size, stays |
| `Manager.Manager.constructor` | src/manager.cc:10-26 | The manager knows the open container by the configuration file |
| `Manager.Manager.GC` | src/manager.cc:220-248 | Drops exactly the entries whose count is zero |
| `Manager.Manager.SmallContainers` | src/manager.cc:143-168 | Lists exactly the containers recorded as small, but the last, and forgets their sizes |
| `Manager.Manager.SaveAgain` | src/manager.cc:197-201 | Refines the relocation of one chunk |
| `Manager.Manager.RelocateChunks` | src/manager.cc:170-208 | The loop over the fingerprints refines the relocation pass |
| `Manager.Manager.DeleteFiles` | src/manager.cc:210-215 | Removes exactly the named files |
| `Manager.Manager.RewriteContainer` | src/manager.cc:140-219 | The whole pass is the value-level compaction: exactly the small recorded containers lose file and size, all others keep them; pending deltas and their files are left alone |
| `Deltas.ConsistentRestores` | src/storageCore.cpp:310-351 | If every record decodes in one step to its meaning and references go downwards, every fingerprint restores to its meaning |
| `Deltas.RestoredIsConsistent` | src/storageCore.cpp:310-351 | Conversely what a store restores is such a meaning |
| `Deltas.MeansWith` | src/manager.cc:65-78 | Replacing one record by another of the same meaning and with a lower base keeps the meaning of all |
| `Deltas.InstallStores` | src/manager.cc:122-138 | Overwriting a region with a delta not longer than it changes the bytes of that fingerprint only, if its container is not cached |
| `Deltas.ReadAfterInstall` | src/storageCore.cpp:445-449 | After an install a read of the chunk returns the delta exactly if its container was not cached or the chunk began with those bytes; otherwise it returns the old bytes |
| `Deltas.StaleRead` | src/storageCore.cpp:445-449 | A store where that goes wrong: the delta is in the file, and the old byte is read |
| `Deltas.DeltaReaches` | src/manager.cc:134-135 | What bytes written at the place of a record do to any other one: the part of it they reach becomes the part of them that falls there, and the rest stays |
| `Deltas.LongDeltaSparesExactly` | src/manager.cc:134-135 | In a sound store, writing n bytes over a chunk spares all others whatever the bytes are exactly if their offsets show that none is reached; no more bytes than the chunk has reach none |
| `Deltas.LongDeltaOverwrites` | src/manager.cc:134-135 | Two bytes over a record of one byte change the next record |
| `Deltas.InstallAccounts` | src/manager.cc:61-74 | Lowering the recorded size by what the delta saves keeps the accounting |
| `DeltaPass.VisitKeeps` | src/manager.cc:42-87 | A visit changes at most the visited chunk, and the remaining deltas can still be visited |
| `DeltaPass.InstallAllPassed` | src/manager.cc:42-87 | After the pass names and counts are unchanged, exactly the deltas of skipped chunks are pending, and the counter counts them |
| `DeltaPass.InstallAllMeans` | src/manager.cc:42-87 | The pass keeps the meaning of every fingerprint, the order of references and the accounting |
| `DeltaPass.InstallAllBytes` | src/manager.cc:42-87 | The pass replaces the bytes of exactly the visited chunks outside the open container, by those of their deltas |
| `DeltaPass.UpdateKeepsRestores` | src/manager.cc:31-95 | After the delta pass every fingerprint restores to the same bytes as before, whatever NULs the deltas contain; references stay acyclic and reference counts the same |
| `DeltaPass.UpdateEmptiesWhenDone` | src/manager.cc:89-92 | The delta directory is emptied exactly if no delta is left pending; those left are those of unknown chunks and of chunks in the open container |
| `Manager.Manager.ReadDeltaContainer` | src/manager.cc:97-121 | Reads the delta from its container; a missing container leaves the zeros of the buffer |
| `Manager.Manager.UpdateContainerFile` | src/manager.cc:122-138 | Overwrites the front of the region in the file and nothing else |
| `Manager.Manager.InstallDelta` | src/manager.cc:56-78 | Record, recorded size and bytes change as the value-level install says |
| `Manager.Manager.UpdateOne` | src/manager.cc:43-84 | One iteration refines one visit; deltas of unknown chunks and of the last container stay pending |
| `Manager.Manager.UpdateContainer` | src/manager.cc:31-95 | The whole pass with its counter and the final removal refines the value-level pass |
| `DeltaCompressor.DeltaCompressor.constructor` | src/compressor.cc:14-37 | The delta store starts from its configuration or from scratch |
| `DeltaCompressor.DeltaCompressor.Close` | src/compressor.cc:39-49 | The destructor writes the open delta container to its file, and no size is recorded |
| `DeltaCompressor.DeltaCompressor.SaveDeltaChunk` | src/compressor.cc:249-286 | A delta for a known chunk is appended to the delta log and becomes pending with one delta more; for an unknown chunk nothing changes |
| `DeltaCompressor.DeltaCompressor.RestoreDeltaChunk` | src/compressor.cc:288-308 | Returns the bytes of a pending delta and changes none |
| `DeltaCompressor.SaveAndClose` | src/compressor.cc:249-286 | A compressor opened, used for one delta and closed appends it to the delta log on disk |
| `DeltaCompressor.SavedDeltaReadable` | src/compressor.cc:249-286 | Once closed, the delta saved last reads back from its file as saved and all others as before |
| `DeltaCompressor.ClosedDeltasReadable` | src/compressor.cc:309-323 | Once closed, every pending delta is in its file: what the delta pass starts from |
| `RefCounts.DedupCountsExactly` | src/chunker.cc:374-395 | Backing up a chunk keeps counts equal to references exactly if its fingerprint has no NUL or is new to the store |
| `RefCounts.NulFingerprintIsLost` | src/chunker.cc:375 | A chunk with a NUL in its fingerprint, backed up twice and deleted once, is collected although it is still referenced |
| `RefCounts.DeleteChunkCounts` | src/storageCore.cpp:376-397 | Taking a reference from a chunk that has one keeps counts equal to references |
| `RefCounts.DeleteAllCounts` | src/storageCore.cpp:243-256 | Deleting a recipe whose entries are counted finds every fingerprint and leaves the counts of the remaining recipes |
| `RefCounts.WrappedCountIsLost` | src/manager.cc:238 | A count of 2^32 references is 0, and the chunk is collected |
| `RefCounts.PartialDropExactly` | src/storageCore.cpp:243-257 | Deleting a range of a recipe and dropping the recipe leaves the other counts right exactly if the range was the whole recipe |
| `RefCounts.ReferencesWith` | src/storageCore.cpp:257-259 | Replacing a recipe changes the references to a fingerprint by its occurrences |
| `RefCounts.CollectRemovesExactlyUnreferenced` | src/manager.cc:238 | Collection leaves counts right exactly if no fingerprint has a positive multiple of 2^32 references, and then keeps exactly the referenced entries |
| `Vault.GoodRestores` | src/storageCore.cpp:310-351 | In a good store every fingerprint restores to the rewritten content it stands for |
| `Vault.DedupGood` | src/chunker.cc:375-395 | Deduplicating a chunk keeps a store good |
| `Vault.SubIndexGood` | src/manager.cc:220-248 | Changing counts and dropping entries keeps a store good as long as no delta loses its base |
| `Runs.DedupAllGood` | src/chunker.cc:324-671 | Backing up all chunks of a file keeps a store good, with counts equal to references |
| `Runs.BackUpGood` | src/chunker.cc:324-689 | A backup keeps the invariant |
| `Runs.DropGood` | src/storageCore.cpp:224-263 | Deleting a whole recipe keeps the invariant |
| `Runs.CollectGood` | src/manager.cc:220-248 | Garbage collection keeps the invariant; sizes become upper bounds |
| `Runs.CompactContents` | src/manager.cc:140-219 | Compacting a good store changes no contents if what it moves is clean |
| `Runs.CompactGood` | src/manager.cc:140-219 | Compaction keeps the invariant |
| `Runs.InstallGood` | src/manager.cc:31-95 | The delta pass keeps the invariant |
| `Runs.ReadGood` | src/storageCore.cpp:441-471 | Any reads, of any containers, keep the invariant |
| `Runs.ReopenGood` | src/storageCore.cpp:29-65 | Closing and opening keeps the invariant |
| `Runs.DoGood` | src/manager.cc:31-248 | Every operation keeps the invariant |
| `Runs.RunGood` | src/manager.cc:31-248 | Every run keeps the invariant, and container sizes stay exact until garbage is first collected |
| `Runs.RunReadsAgree` | src/storageCore.cpp:441-471 | In every run of saves, reads and all other operations a read of any record returns its stored bytes wherever it is served from, and the cached container is sealed and equal to its file while that exists |
| `Runs.RunKeepsRecipe` | src/storageCore.cpp:132-165 | A recipe no operation of a run names is unchanged by the run |
| `Runs.GoodRestoresRange` | src/storageCore.cpp:167-223 | A good store restores every range of every recipe to the contents of its entries |
| `Runs.EndToEnd` | src/storageCore.cpp:167-223 | A file backed up under a fresh name, followed by any run of other backups, deletions, collections, compactions, delta passes, reads and reopenings, restores in every range to its chunks, in order, with NULs rewritten |
| `Runs.EmptyGood` | src/storageCore.cpp:47-50 | The empty store satisfies the invariant |
| `Runs.GoodHasRank` | src/storageCore.cpp:310-351 | In every good store references are acyclic, so the recursion of a restore ends |
| `RunLimits.MovesCleanlyExactly` | src/manager.cc:193-202 | Only a delta with a NUL outside its last two bytes can make compaction lossy |
| `RunLimits.BasesKeptExactly` | src/manager.cc:238 | Collection keeps the base of every delta exactly if every referenced delta refers to a referenced base |
| `RunLimits.CollectedBaseIsLost` | src/storageCore.cpp:323-335 | Otherwise the chunk restores to the delta applied to nothing |
| `SampleRuns.EverythingRuns` | src/manager.cc:31-248 | A run that backs up two files, installs a delta, compacts, reads and collects may be done, and its compaction moves the delta to another container |
| `FailingRuns.BaseIsLost` | src/manager.cc:238 | After a run that drops the file of a base and collects, the chunk of a file still there restores to something else than its content |
| `FailingRuns.PendingBaseIsLost` | src/manager.cc:31-95 | After a run that saves a delta, drops the file of its base and collects, all as allowed, installing the delta makes the chunk of a file still there restore to something else than its content |
| `FailingRuns.DeltaIsSpoilt` | src/manager.cc:193-202 | After a run that compacts a delta with a NUL outside its last two bytes, the stored delta is another one and the chunk restores to something else than its content |
| `FailingRuns.DeltaIsOverwritten` | src/chunker.cc:374-395 | After a run that backs up again a chunk with a NUL in its fingerprint, stored as a delta, every file with it restores to something else than its content |
| `Samples.ExampleOk` | src/manager.cc:31-248 | Concrete names, chunks and deltas meet the hypotheses of these runs |
| `Samples.PlainSample` | src/manager.cc:238 | A sample for the run that does everything and for the lost base |
| `Samples.UncleanSample` | src/manager.cc:193-202 | A sample for the spoilt delta |
| `Samples.UncleanBaseSample` | src/manager.cc:193-202 | Another one, where the rewriting destroys the fingerprint of the base |
| `Samples.NulHashSample` | src/chunker.cc:374-395 | A sample for the overwritten delta |
| `RunLimits.ResavedContents` | src/chunker.cc:374-395 | A stored chunk whose fingerprint has a NUL is saved over its record, and a delta becomes the beginning of the raw chunk |
| `RunLimits.DedupKeepsContentsExactly` | src/chunker.cc:374-395 | Backing up a known chunk again leaves all contents alone exactly if its fingerprint has no NUL, or it is stored plain, or its delta reads like the beginning of the chunk |
| `PendingRuns.PendingInstallable` | src/manager.cc:31-95 | Right pending deltas may be installed at any time by a core that has not read yet |
| `PendingRuns.InstallPending` | src/manager.cc:31-95 | After a pass the deltas left pending are still right, and their files are there |
| `PendingRuns.SavedLogOk` | src/compressor.cc:249-286 | Saving a delta and closing keeps the delta log sound, with all pending deltas in files |
| `PendingRuns.SavePending` | src/compressor.cc:249-286 | A right delta saved keeps all pending deltas right |
| `PendingRuns.DoKeepsPending` | src/manager.cc:31-248 | Every operation keeps pending deltas good, if collections keep their bases and a pass visits all of them |
| `PendingRuns.PendingBasesKeptExactly` | src/manager.cc:220-248 | A collection keeps the bases of right pending deltas exactly if all of them are referenced |
| `PendingRuns.RunKeepsPending` | src/manager.cc:31-248 | Over every run deltas that were right when saved stay right, and can be installed at its end |
| `PendingRuns.EmptyPending` | src/compressor.cc:14-37 | The empty store has good pending deltas |
| `Program.DerivedUnique` | src/chunker.cc:174-178 | The configuration determines the cut parameters |
| `Program.Program.BackUp` | src/main.cc:45-48 | A chunker on the storage core backs up a file: the operation of the runs |
| `Program.Program.Drop` | src/storageCore.cpp:224-263 | Deleting the whole recipe of a good store finds every fingerprint: the operation of the runs |
| `Program.Program.Reopen` | src/main.cc:98-99 | Deleting the core and making a new one is the operation of the runs |
| `Program.Program.Collect` | src/manager.cc:220-248 | A manager on a core just opened collects: the operation of the runs |
| `Program.Program.Compact` | src/main.cc:188-192 | A manager on a core just opened compacts: the operation of the runs |
| `Program.Program.Install` | src/main.cc:181-186 | A manager on a core just opened installs the pending deltas: the operation of the runs |
| `Program.Program.Restore` | src/main.cc:117-137 | A restore returns the contents of the entries asked for, and only reads |
| `Program.Program.SaveDelta` | src/compressor.cc:63-100 | One pair of similar chunks: both are restored; exactly if they are two, differ before their last two bytes, and the delta is shorter than the chunk and the limit, that delta becomes pending beside the others, in the delta log; nothing else changes but the read cache |
| `Program.Program.SaveNew` | src/compressor.cc:249-286 | Opening the compressor, saving and closing on the real objects appends the delta to the log on disk and makes it pending, with one delta more than its chunk has; other pending deltas stay as they are |
| `Program.Program.SavingKeepsPending` | src/compressor.cc:63-100 | Whatever was read, saving the delta of a pair that fits a ranking keeps the store good and all pending deltas right by that ranking |
| `Program.Program.SavedExactly` | src/compressor.cc:79-97 | The delta is pending afterwards, with its bytes, beside all others as they were, exactly if both chunks are known and differ before their last two bytes and it is shorter than the chunk and the limit; otherwise nothing has changed |
| `Program.StemsEqual` | src/compressor.cc:86 | Two chunks count as the same exactly if they agree but for the last two bytes |
| `Program.Program.CommandGood` | src/main.cc:140-202 | Every command keeps the invariant, and every recipe it does not name |
| `Program.Program.CommandKeepsPending` | src/main.cc:140-202 | Every command, saving another delta included, keeps saved deltas good, if collections keep their bases and a pass visits all of them |
| `Program.Program.InstallAlwaysOk` | src/main.cc:181-186 | So the pass may be commanded at any time |
| `Program.Program.PerformAll` | src/main.cc:140-202 | Any commands keep the invariant, and a recipe none of them names |
| `Program.Program.BackUpRunRestore` | src/main.cc:140-202 | On the real objects: a file backed up, followed by any commands that do not name it, restores to itself but for NULs, and to exactly itself if and only if every chunk is clean |
| `CommandLists.SavesThenInstall` | src/compressor.cc:63-100 | Any number of deltas that fit one ranking may be saved one after the other, while names are left, and then be installed in one pass with those pending before |
| `CommandLists.InstallAfter` | src/main.cc:181-186 | Where commands may be given, a pass may follow them: good pending deltas stay so through all that the commands may lead to |
| `FullList.WholeListOk` | src/main.cc:140-202 | From the empty store two files may be backed up, a delta saved and installed, the store compacted and a file restored, in this order and wherever each command leads |
| `FullRun.PackedMade` | src/compressor.cc:63-100 | Concrete chunks, delta coder and settings meet the hypotheses of that list |
| `FullRun.WholeRun` | src/main.cc:140-202 | On objects made from empty directories and databases the whole list is performed, and the first file comes back as it was |
| `WholeFile.ComesBack` | src/storageCore.cpp:187-218 | Restored entries of the recipe of a file join to the file but for its NULs |
| `WholeFile.SanEachContents` | src/storageCore.cpp:285-288 | Rewriting piece by piece changes nothing but NULs, and nothing at all exactly if every piece is clean |
| `WholeFile.FileComesBack` | src/chunker.cc:324-671 | After any such run the chunks restored concatenate to the file but for its NULs, and to the file itself exactly if every chunk is clean |
| `RollingHash.MaskIsMod` | src/chunker.cc:154-167 | Masking with 2^n - 1 is the remainder by 2^n |
| `RollingHash.PowerTable` | src/chunker.cc:151-157 | The first table holds the powers of 257 modulo 2^23 |
| `RollingHash.NextPower` | src/chunker.cc:156 | The step of the table does not overflow 32 bits |
| `RollingHash.RemoveTable` | src/chunker.cc:160-167 | The second table holds, modulo 2^23, the negated contribution of the byte that leaves the window |
| `RollingHash.FilledIsPoly` | src/chunker.cc:334-339 | While the window fills, the hash is the polynomial of the bytes so far, shifted to full length, modulo 2^16; no 32-bit step overflows |
| `RollingHash.SlidIsPoly` | src/chunker.cc:340-346 | Sliding keeps the hash equal to the polynomial of the window modulo 2^16; no 32-bit step overflows |
| `RollingHash.MaskBits` | src/chunker.cc:174-178 | The loop finds the n with 2^n <= average < 2^(n+1) |
| `RollingHash.NarrowingInvisibleExactly` | src/chunker.cc:318-352 | The anchor test on the 16-bit hash agrees with the test on the polynomial, for all windows of a size, exactly if the mask has at most 16 bits or the window is one byte |
| `RollingHash.WideIsM16` | src/chunker.cc:318-352 | The window of zeros, 255 and 1 where they disagree: its polynomial is 2^16 |
| `Cuts.SameCutsExactly` | src/chunker.cc:349-470 | The chunk loop cuts where the test on the whole polynomial would, exactly if the mask has at most 16 bits, or the window is one byte, or only one chunk size is possible |
| `Cuts.CutFromIs` | src/chunker.cc:349-470 | A first cut is the only first cut |
| `Cuts.ChunksAreGreedy` | src/chunker.cc:324-671 | The chunks concatenate to the file, and each is the shortest piece that may be cut; only the last may be left over |
| `Cuts.GreedyIsChunks` | src/chunker.cc:324-671 | Any division of the file that follows the rule is the one computed |
| `Cuts.ChunkSizes` | src/chunker.cc:349-470 | No chunk is empty or longer than the maximum; all but the last are longer than the window and at least the minimum |
| `Cuts.Resynchronises` | src/chunker.cc:466 | After data that ends at a cut, the chunks are those of the rest alone |
| `Cuts.CommonSuffixSameChunks` | src/chunker.cc:466-580 | Two files that cut at one point of a common suffix have the same chunks from there on |
| `Chunker.HashStep` | src/chunker.cc:334-346 | One step of the table-driven hash is one step of the direct form |
| `Chunker.FedChunks` | src/chunker.cc:329-581 | A byte completes a chunk exactly where the rule cuts |
| `Chunker.Chunker.constructor` | src/chunker.cc:119-181 | The tables and the mask are built, and the state is that of an empty chunk |
| `Chunker.Chunker.Deduplicate` | src/chunker.cc:374-395 | Counts a reference to a chunk whose fingerprint, as a C string, is known, saves it otherwise, and calls it unique exactly then |
| `Chunker.UniqueExactly` | src/chunker.cc:374-395 | A chunk of a file is recorded as unique exactly if it is neither in the store nor earlier in the file, or its fingerprint has a NUL |
| `Chunker.Chunker.Emit` | src/chunker.cc:354-458 | Emitting a chunk adds its recipe entry, deduplicates it and indexes it |
| `Chunker.Chunker.Roll` | src/chunker.cc:331-346 | After each byte the buffer holds the current chunk and the hash is that of its window |
| `Chunker.Chunker.Feed` | src/chunker.cc:329-581 | One byte emits the buffer exactly where the rule cuts |
| `Chunker.Chunker.ReadBlocks` | src/chunker.cc:324-586 | Reading in blocks of any size, with hash and buffer carried across, emits exactly the complete chunks of the file |
| `Chunker.Chunker.VarSizeChunking` | src/chunker.cc:307-701 | Whatever the read size, store, recipe and index are those of the chunks of the greedy rule, and the index calls exactly the new chunks unique, and those with a NUL in their fingerprint |
| `Grouping.AddDescribes` | src/chunker.cc:409-457 | Adding an item keeps the grouping described by the declarative rule: each closed group ends at the first item that closes it |
| `Grouping.ClosedGroupBytes` | src/chunker.cc:704-731 | A closed group holds at least the minimum and at most the maximum plus two of the largest items |
| `Grouping.EndOfSegmentExactly` | src/chunker.cc:704-757 | A member never closes its group below the minimum, always above the maximum, and between them exactly if the first four bytes of its fingerprint are one less than a multiple of the divisor or its last nine are digits 0 |
| `Grouping.FirstByteDecides` | src/chunker.cc:716-728 | For the divisor 64 of segments and 256 of containers the first byte decides: 63 modulo 64, and 255 |
| `Grouping.ClosedByPattern` | src/chunker.cc:704-757 | A closed group ends at the first member with that pattern behind at least the minimum of bytes, unless more than the maximum come before |
| `Grouping.HashesJoined` | src/chunker.cc:398-417 | The bytes of a group add up, and its fingerprints are joined one after the other, as they are if they have no NUL |
| `Grouping.ClosedGroupsTile` | src/chunker.cc:412-446 | Closed groups are disjoint, in order, and cover everything before the open one |
| `Grouping.DescriptionUnique` | src/chunker.cc:409-457 | The rule determines the grouping |
| `FileIndex.AddChunkDescribes` | src/chunker.cc:404-457 | Adding a chunk keeps records, segments and containers right, with consecutive numbers |
| `FileIndex.CoveredAfterChunk` | src/chunker.cc:409-457 | After a chunk every chunk is in a segment exactly if this one closed its segment, and then every segment is in a container exactly if that one closed its container |
| `FileIndex.FinalCoversAll` | src/chunker.cc:640-662 | With one, segments cover all chunks and containers all segments, each starting where the one before ended; the final segment ends one past the last chunk, the final container at the last segment |
| `FileIndex.FinalGroups` | src/chunker.cc:640-662 | Number, first, last and digest of the final segment and container, the digest being the final one of all their members |
| `FileIndex.FileIndex.CountSegment` | src/chunker.cc:423-450 | A closed segment is added to the containers with the bytes counted before its last chunk |
| `FileIndex.FileIndex.Record` | src/chunker.cc:397-458 | The counters and lists after a chunk are those of the value-level index |
| `FileIndex.FileIndex.RecordFinal` | src/chunker.cc:633-662 | The same for the left-over chunk, which closes its segment and container whatever the rule says |
| `IndexOfFile.IndexDescribesChunks` | src/chunker.cc:397-458 | The index built along the file describes the chunks emitted |
| `IndexOfFile.FlatAndLevelsAgree` | src/chunker.cc:397-408 | Flat and three-level index hold the same chunk records: numbers and fingerprints of the recipe, unique exactly where the fingerprint, as a C string, was not in the store |
| `IndexOfFile.SegmentBytesBounded` | src/chunker.cc:704-731 | Every segment closed by the rule holds between MIN and MAX plus two largest chunks |
| `IndexOfFile.SegmentEndsAtPattern` | src/chunker.cc:704-731 | The same for the segments of a file and its chunks |
| `IndexOfFile.ItemsAreBytes` | src/chunker.cc:452-457 | The bytes counted for chunks are those of the data they hold |
| `FileIndex.ContainerEndsAtPattern` | src/chunker.cc:732-757 | A container ends at the first segment whose digest has the pattern behind at least the minimum of bytes, the last chunk of each segment not counted, unless more than the maximum come before |
| `IndexOfFile.IndexCoverage` | src/chunker.cc:409-662 | The index of a file has every chunk in a segment exactly if the file is empty, or does not end at a cut, or its last chunk closes its segment |
| `IndexOfFile.ContainerCoverage` | src/chunker.cc:423-450 | Without a left-over chunk every segment is in a container exactly if there is none, or the last one closed its container |
| `IndexOfFile.OneSegmentUncovered` | src/chunker.cc:423-450 | A file of one chunk, cut by the rule and repeated until it closes a segment: every chunk is in that segment, and it is in no container |
| `IndexOfFile.OneChunkUncovered` | src/chunker.cc:589 | A file that is one chunk cut by the rule has its chunk in no segment |
| `Aligner.SearchFindsFirst` | src/dector.cc:119-159 | The search finds the first match of the size-by-size window in row-major order, or shows there is none |
| `Aligner.WindowSearch` | src/dector.cc:119-159 | The loop that restarts its counter computes that search, moves to the match, or moves past the window |
| `Aligner.StepIsPlain` | src/dector.cc:77-244 | The mode variables do what an explicit open region would do: flag is 2 exactly while one is open, it starts at the last pair pushed, and the pair looked up at a close is that one |
| `Aligner.StepProgress` | src/dector.cc:77-159 | Every step advances in the second list, or reaches a match that makes the next one advance, although the first position may move back |
| `Aligner.RunOrdered` | src/dector.cc:77-244 | Regions open at mismatches, close before matches, and follow each other in the second list over the whole run |
| `Aligner.AlignmentOrdered` | src/dector.cc:77-244 | The same for every alignment from the start |
| `Aligner.RunReported` | src/dector.cc:77-244 | Every run goes through a walk of first matches and reports what that asks for, in order |
| `Aligner.RegionsExactly` | src/dector.cc:161-242 | The regions are exactly the stretches skipped by at least two in both lists, and those from the first of exhausted windows to the match after them |
| `Aligner.PairsExactly` | src/dector.cc:161-242 | The pairs are exactly the ends of those stretches, one still open included, and the places where single chunks differ |
| `Aligner.WalkUnique` | src/dector.cc:77-159 | Two lists have one walk, so what is reported is determined |
| `Aligner.TwoDifferWalk` | src/dector.cc:77-159 | Two chunks that differ between equal ones: the walk |
| `Aligner.TwoDifferReported` | src/dector.cc:161-190 | And its two pairs and its region |
| `Aligner.Dector.PushClosing` | src/dector.cc:219-241 | The closing pair is pushed and the region starts at the last pair but one |
| `Aligner.Dector.SettleRegions` | src/dector.cc:161-242 | The four tests after a search do what the value-level step says |
| `Aligner.Dector.TrueTransferDector` | src/dector.cc:60-245 | The aligner terminates; its pairs and regions are exactly those of the first matches of the windows it goes through: both ends of what is skipped or exhausted, and single chunks that differ |
| `GridFS.DivMod` | include/mongocxx/gridfs/private/downloader.hh:100-110 | The chunk count and the size of the last chunk follow from the length |
| `GridFS.Uploader.constructor` | include/mongocxx/gridfs/uploader.cpp:40-62 | A new writer has written nothing |
| `GridFS.Uploader.FlushChunks` | include/mongocxx/gridfs/uploader.cpp:189-202 | Sending a batch loses and reorders nothing |
| `GridFS.Uploader.FinishChunk` | include/mongocxx/gridfs/uploader.cpp:152-187 | Makes the buffered bytes the chunk with the next number, or nothing of an empty buffer, and sends the chunks once there are enough for a batch; fails exactly at the largest number |
| `GridFS.Uploader.Write` | include/mongocxx/gridfs/uploader.cpp:73-92 | Appends all bytes to those written, terminates despite the pass without progress, and fails exactly if they do not fit |
| `GridFS.Uploader.Close` | include/mongocxx/gridfs/uploader.cpp:94-129 | The chunks hold exactly the bytes written, are numbered 0, 1, 2, .., all but the last are full, and the recorded length is exact |
| `GridFS.Downloader.constructor` | include/mongocxx/gridfs/private/downloader.hh:84-115 | A new reader has everything left to read |
| `GridFS.Downloader.FetchChunk` | include/mongocxx/gridfs/downloader.cpp:96-164 | Succeeds exactly on a chunk with the right number and size, and loses nothing |
| `GridFS.Downloader.Read` | include/mongocxx/gridfs/downloader.cpp:45-73 | What is read is a prefix of what was left; on a well-formed file it is as much as was asked for and is there |
| `GridFS.WriteAll` | include/mongocxx/gridfs/uploader.cpp:73-129 | Any split of writes, then a close, stores a well-formed file with exactly those bytes |
| `GridFS.ReadAll` | include/mongocxx/gridfs/downloader.cpp:45-73 | Any split of reads returns the bytes of a well-formed file in order, as far as asked for |
| `GridFS.RoundTrip` | include/mongocxx/gridfs/downloader.cpp:45-164 | Whatever pieces a file is written and read in, the bytes read are the bytes written |

## Left out

- Runs.EndToEnd: assumes what `Allowed` says of each operation: chunks shorter than a container, fingerprints
  that the lookup can find, names left for the rollovers, compactions of clean slots, collections that remove no
  delta's base with fewer than 2^32 references, and pending deltas that decode to their chunk and refer to bases
  without a cycle. The lemmas of `RunLimits` say what these come to.
- Runs.DropGood: is about the whole recipe; `PartialDropExactly` says that a part of it breaks the counts.
- StorageCore.StorageCore.SaveChunk: requires that an existing record is not longer than the new data; the
  source would read behind the buffer.
- StorageCore.StorageCore.RestoreChunk: requires acyclic references; the recursion of the source does not end on a cycle.
- StorageCore.StorageCore.CheckRecipeStatus: the recipe file and its database entry are one map, and the recipe
  head, which holds totals only, is not part of this model.
- Manager.Manager.UpdateContainer: requires that the sizes of the containers concerned are recorded and that deltas are not longer than
  their chunks; the source throws or writes into the next chunk otherwise.
- Manager.Manager.RewriteContainer: a manager that outlives a rollover, and so mistakes the open container, is not covered.
- Names.NextIsLarger: after the last permutation names start over and containers are overwritten; runs are limited to the names left.
- FileIndex.FileIndex.Record: index flags other than the flat and the three-level index record nothing in the source
  and are left out here; the digests are parameters.
- Program.Program.PerformAll: comparing two files, which main does between these commands, is not a command here; the
  aligner only reads.
- FullRun.WholeRun: uses chunks of 40 bytes and containers of 50, and a coder that packs one chunk.
- Program.Program.SaveDelta: is for chunks not yet stored as a delta, for which the guard bounds the stored bytes too.
- Aligner.Dector.TrueTransferDector: records the regions fetched as pairs of positions; the log written, the
  chunks restored and the super-features computed from them are not part of this model, and reading past either list matches nothing.
- GridFS.Downloader.FetchChunk: documents with a missing field or a field of the wrong type, which the source rejects first, cannot be written down here.
- GridFS.Uploader.Close: identifiers, upload date, file name, metadata and sessions are not part of this model, nor is `abort`.
- `fixSizeChunking`: its chunks go nowhere.
- `saveChunks`: the payload of a duplicate is not skipped, so its batches have no clear meaning.
- `delta_create`, super-features, and the grouping of similar chunks through MongoDB.
- Saving and loading the index and the configuration: fixed-width records.
- Crashes between two steps, failed file operations and threads.
- Lengths found by `strlen` in restored deltas: bytes carry their length here.
- The 16-byte layout of container names in a record.
- The stubs `ContainerDector`, `SegmentDector` and `transferDector`.
- The rest of the MongoDB driver and the LevelDB headers.
