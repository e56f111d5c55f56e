# A verified model of backuwup

backuwup is a peer-to-peer backup program. A client packs a directory tree into encrypted packfiles,
a server matches clients that ask each other for storage, and packfiles travel to matched peers and
back. This project models those three parts in Dafny and proves what they promise.

`dafny verify dfyconfig.toml` checks everything. There are no dependencies.

**The packfile store and the snapshot tree** (`Bincode`, `PackfileFormat`, `Archives`, `Disk`,
`BlobIndex`, `Manager`, `Storing`, `Trees`, `Snapshots`, `DirWalk`, `TreePacking`, `FileTasks`,
`DirPacker`, `Fetching`, `DirUnpacker`, `Backup`, `KindClashes`). Bytes are concrete: bincode's varint and fixed-width encodings, the packfile
layout and the index files are written out. The manager, the index and the folder are classes updated
in place; the files of a directory are packed by tasks whose steps interleave. Any write to the folder
may fail, and the sender may delete packfiles between the packer's steps. `Disk` carries a ghost
`Archive`, the logical content of everything ever written, and a `history` of every state that a process
stopped at any point leaves behind. The main theorem,
`Backup.Restore`, says exactly when unpacking what `Backup.Pack` wrote gives the same tree; what it
requires is what `Pack` ensures when no file failed, and that no two blobs with different data share a
hash (given by `Backup.CollisionFreeIsEnough` when BLAKE3 does not collide on what was packed).

**The storage-request matcher** (`Matching`, `BackupRequests`). `Matching` is a transition system whose
steps interleave any number of `fulfill` calls, expiries and failing awaits. `BackupRequests.Server`
is one call as the loop the server runs; it is proved to be a run of that system and to be, await by await, a
recursive matching in which every await fails or not as given. Where only notifications of other clients fail,
that is the first-come matching of the connected ones, whose shares are then given in closed form.

**The transfer between peers** (`FileNames`, `Obfuscation`, `Peers`, `Sessions`, `Transfers`, `Exchanges`,
`Turns`, `Receiving`, `Sending`, `Handover`, `Restoring`). `Sessions` has the counters of both ends of one session;
`Transfers` all sessions, disks and ledgers of a client and its peers, with a network that replays,
loses and forges messages; `Exchanges` shows that a session in step can always deliver the next file;
`Sending` is the client's sending loop, with others acting at each of its awaits, and `Turns` says from their acts
and the outcomes of its own operations exactly which files go through;
`Receiving` the peer's loop over one stream; `Handover` shows that what the packer writes are steps of
that world; `Restoring` is the way back. `Restoring.RecoverBackup` joins the parts: tree, packfiles,
peers, packfiles, tree.

`Primitives` holds the external algorithms as a record of functions and `Lawful`, the hypotheses about
them: AES-256-GCM (NIST SP 800-38D) opens what it sealed and adds 16 bytes, zstd decompresses what it
compressed and expands by at most n / 256 + 64 bytes, FastCDC's chunks concatenate to the file.
`Primitives.LawsAreSatisfiable` shows that these can hold together.

## Findings

- A blob's hash covers its data but not its kind (dir_packer.rs:286, 318-321), and the first blob
  entered under a hash is the one kept. So an added blob reads back as itself if and only if the first
  one with its hash had its kind (`Backup.ReadsBackAsItself`), and a backup is restored if and only if no
  tree of it has the bytes of a file chunk that was added before it; otherwise unpacking stops with an
  error (`Backup.Restore`, condition `TreesFirst`). `KindClashes.ChunkBeforeTree` is the failing input, for
  every tree of one piece; in the other order the tree is read back (`KindClashes.TreeBeforeChunk`).
- When writing fails, the hashes taken from the queue stay marked as queued (pack.rs:122-183,
  blob_index.rs:102-127), so later adds of the same data return Ok and store nothing. If the packfile cannot
  be written the whole batch is lost; if an index file cannot be written while the batch is being entered,
  the hashes after that one are; a failing index write at the end of a flush loses nothing
  (`Packfiles.Failure`, `Packfiles.Manager.WritePackfiles`). Over any sequence of calls that ends with a
  successful flush, a hash is in the index files if and only if it was lost in none of these ways, and all
  are if and only if nothing failed but index writes with no hash left to enter (`Storing.MakeCalls`).
  `Storing.FailedWriteLosesBlob` is a failing input: add, flush with an error, add again and flush again
  with success, and the blob is not there.
- `BlobIndex::flush` writes an index file even when nothing is pending (blob_index.rs:203-228).
- The limit of 50,000 entries for an index file (blob_index.rs:19, 156-161) does not survive a failed write:
  the full buffer is kept and the next entry goes on top of it. `BlobIndices.OverfullFile` is the failing
  input, which leaves a file of 50,001 entries. Exactly (`Storing.MakeCalls`): over any sequence of calls
  ending in a successful flush all index files are within the limit if and only if no call wrote a packfile
  while an index file was overdue, that is, after its write failed with hashes being entered and before
  the next index file; in particular they are if no call failed in this way, or no write fails
  (`Backup.Pack`).
- `send_index` sends all new index files if and only if the directory lists them in ascending order
  (`Sending.SendsAllIfAscending`); `Sending.UnorderedListingSkips` is an order that leaves a file
  unsent for good. The names sort as the numbers do (`FileNames.NamesSortAsNumbers`), so a directory
  listed by name is in order.
- A match whose second database write fails leaves a forward row without a row back
  (backup_request.rs:122-139). With no call between its two writes, what two clients hold for each other is
  equal both ways if and only if the second writes that failed in either direction have equal sums
  (`Matching.SymmetricUnlessWritesFailed`); `Matching.FailedSecondWriteLeavesHalf` is a run that leaves
  one row and none back.

## Model

| member | source | states |
|---|---|---|
| `Bincode.VarintRoundTrip` | client/src/backup/filesystem/packfile/pack.rs:207-234 | decoding the varint encoding of any 64-bit integer, with anything after it, gives the integer and the rest |
| `Bincode.VecRoundTrip` | client/src/backup/filesystem/packfile/blob_index.rs:167-229 | a length-prefixed vector of any invertible element encoding decodes to itself |
| `PackfileFormat.DecryptInvertsEncrypt` | client/src/backup/filesystem/packfile/pack.rs:58-79 | a blob within 3 MiB, compressed and sealed under its own nonce, opens to itself and stays within the sealed bound |
| `PackfileFormat.HeaderBlobRoundTrip` | client/src/backup/filesystem/packfile/pack.rs:135-142 | a header entry decodes to itself: hash, kind, compression, length and offset |
| `PackfileFormat.HeaderTilesData` | client/src/backup/filesystem/packfile/pack.rs:129-148 | each blob starts where its predecessor ends, the first at 0, and the last ends with the data: no gap and no overlap |
| `PackfileFormat.SpanHoldsBlob` | client/src/backup/filesystem/packfile/pack.rs:135-148 | at a blob's offset stand its own nonce and then its own ciphertext |
| `PackfileFormat.BatchFitsPackfile` | client/src/backup/filesystem/packfile/pack.rs:154-170 | for every batch that the thresholds allow, with entries of up to 44 bytes, tags and compressor expansion, the 16 MiB assertion holds |
| `PackfileFormat.HeaderReadsBack` | client/src/backup/filesystem/packfile/unpack.rs:32-52 | reading the length prefix and opening the header of a written packfile gives its header and the start of its data |
| `PackfileFormat.BlobReadsBack` | client/src/backup/filesystem/packfile/unpack.rs:32-83 | reading a hash from a written packfile gives the first blob with that hash; no size or mismatch guard fires |
| `Archives.NoncesAreDistinct` | client/src/backup/filesystem/packfile/blob_index.rs:232-237 | different index file numbers give different nonces |
| `Archives.NonceHoldsNumber` | client/src/backup/filesystem/packfile/blob_index.rs:232-237 | the first four bytes of the nonce hold the number, the others are zero |
| `Archives.IndexFileOpens` | client/src/backup/filesystem/packfile/blob_index.rs:167-229 | an index file opens under its own number to the entries written |
| `Archives.Locate` | client/src/backup/filesystem/packfile/blob_index.rs:143-148 | linear lookup: what is found is an entry for the hash, and nothing is found only if there is none |
| `Archives.IndexedOnce` | client/src/backup/filesystem/packfile/blob_index.rs:102-164 | in every archive state a hash has at most one place in all index files, and the packfile named there was written and its header lists the hash |
| `Archives.IndexedBlobsReadBack` | client/src/backup/filesystem/packfile/unpack.rs:23-83 | every indexed hash reads back as the blob first entered under it, one that was handed to add_blob; any other hash is not found |
| `Disks.Disk.CreatePackfile` | client/src/backup/filesystem/packfile/pack.rs:172-182 | creates the file unless the id is taken or the write fails, in which cases nothing changes; the new state joins the history of valid states |
| `Disks.Disk.WriteIndexFile` | client/src/backup/filesystem/packfile/blob_index.rs:213-226 | the next number gets the file, and the entries are appended to the archive's index; if the write fails nothing changes |
| `Disks.Disk.RemovePackfile` | client/src/backup/send.rs:286 | deleting a sent packfile leaves the folder valid |
| `BlobIndices.SortSorts` | client/src/backup/filesystem/packfile/blob_index.rs:191-197 | the loaded entries are sorted by hash |
| `BlobIndices.ReadIndexFiles` | client/src/backup/filesystem/packfile/blob_index.rs:167-199 | in whatever order the files are listed, their entries together are those of the index, and the highest number is that of the last file |
| `BlobIndices.BlobIndex.Load` | client/src/backup/filesystem/packfile/blob_index.rs:66-94 | opening any valid folder succeeds with exactly the entries of its index files, sorted |
| `BlobIndices.BlobIndex.FindPackfile` | client/src/backup/filesystem/packfile/blob_index.rs:143-148 | binary search finds an entry if there is one, and agrees with linear lookup |
| `BlobIndices.BlobIndex.IsBlobDuplicate` | client/src/backup/filesystem/packfile/blob_index.rs:130-140 | says whether the hash is queued or loaded |
| `BlobIndices.BlobIndex.AddToPackfile` | client/src/backup/filesystem/packfile/blob_index.rs:102-114 | lists and marks the hash; fails if and only if it was marked before |
| `BlobIndices.BlobIndex.Flush` | client/src/backup/filesystem/packfile/blob_index.rs:203-229 | the pending entries become the next numbered file, or stay pending exactly when no number is left or the file cannot be written; the log of all entries is unchanged, and a file over the limit comes only from a buffer over it |
| `BlobIndices.BlobIndex.Push` | client/src/backup/filesystem/packfile/blob_index.rs:151-164 | the log of all entries, files in number order and then the buffer, grows by exactly this entry, even when the flush of a full buffer fails; which file is written, and when, is exact; the limit of 50,000 entries is kept if and only if it held and the buffer was not full |
| `BlobIndices.BlobIndex.FinalizePackfile` | client/src/backup/filesystem/packfile/blob_index.rs:117-127 | the hashes of the packfile get one entry each, in order, up to and including the one at which an index file cannot be written; the others stay unsaved; no hash is ever indexed twice; every index file stays within 50,000 entries if and only if that held and the buffer was not full at first |
| `BlobIndices.OverfullFile` | client/src/backup/filesystem/packfile/blob_index.rs:151-164 | for every index and any 50,001 entries: the write at the 50,000th fails, the next push succeeds, and its file has 50,001 entries |
| `Packfiles.FirstsAreKept` | client/src/backup/filesystem/packfile/pack.rs:129-142 | of the queue, the first blob of every hash not known is kept |
| `Packfiles.KeptAreFirsts` | client/src/backup/filesystem/packfile/pack.rs:129-142 | nothing else is kept, and no hash twice |
| `Packfiles.Manager.FillPackfile` | client/src/backup/filesystem/packfile/pack.rs:123-162 | the batch and what it leaves are the fresh blobs in order; it stops at a threshold or an empty queue; `DuplicateBlob` never occurs; header and data are those of the batch |
| `Packfiles.Manager.SavePackfile` | client/src/backup/filesystem/packfile/pack.rs:164-195 | the packfile gets a fresh id and exactly its entries, and its size is added to that of the local buffer; the limit is exceeded if and only if the size from before was above 100 MiB; exactly when it cannot be written, and how many hashes were entered when an index file cannot be written |
| `Packfiles.Manager.WriteOnePackfile` | client/src/backup/filesystem/packfile/pack.rs:122-195 | takes one batch, cut at a threshold or at the end of the queue, and saves it under a new id; on failure exactly those of its blobs are lost that were not indexed; the size of the local buffer grows by the file written, and the limit is reported exactly if it was above 100 MiB before |
| `Packfiles.Manager.WritePackfiles` | client/src/backup/filesystem/packfile/pack.rs:116-204 | the queue without known and repeated hashes is, in order, the batches written, the batch that could not be written and what is still queued; every batch but the last has reached a threshold; nothing else is added; lost is exactly what of the failing batch was not indexed; the size of the local buffer grows by exactly the files written; when all is written, `ExceededBufferLimit` is returned if and only if it is to be reported and that size, before some file of this call, was above 100 MiB; when no write fails and ids, nonces and index file numbers suffice, the queue is emptied |
| `Packfiles.Manager.Candidates` | client/src/backup/filesystem/packfile/pack.rs:93-106 | size and number of the queued blobs that are not known |
| `Packfiles.Manager.TriggerWriteIfDesired` | client/src/backup/filesystem/packfile/pack.rs:92-113 | writes if and only if these reach a threshold; lost is exactly what of a failing batch was not indexed; `ExceededBufferLimit`, on which the caller waits, exactly if the local buffer was above 100 MiB before some file of this call |
| `Packfiles.Manager.Enqueue` | client/src/backup/filesystem/packfile/pack.rs:43-52 | appends the sealed blob; it becomes the first of its hash if and only if the hash was neither queued nor known |
| `Packfiles.Manager.CheckBlob` | client/src/backup/filesystem/packfile/pack.rs:32-40 | first section of add_blob: refuses exactly blobs above 3 MiB and is done exactly with known ones |
| `Packfiles.Manager.QueueBlob` | client/src/backup/filesystem/packfile/pack.rs:42-52 | second section: the sealed blob is queued last, under the nonce just drawn, and opens to the blob given; its hash is tracked, duplicate or not; fails exactly if there is no nonce |
| `Packfiles.Manager.MeasureQueue` | client/src/backup/filesystem/packfile/pack.rs:93-106 | third section: goes on to write exactly when the queued blobs that are not known reach a threshold |
| `Packfiles.Manager.AddBlob` | client/src/backup/filesystem/packfile/pack.rs:31-55 | fails as too large exactly above 3 MiB; otherwise on success the hash is tracked and nothing is lost; on a failed write lost is exactly what of the batch was not indexed; the local buffer grows by the files written, and `ExceededBufferLimit` is returned exactly if it was above 100 MiB before one of them; a known hash gives Ok and changes nothing of what was written; first insertions are never replaced |
| `Packfiles.Manager.LetSenderDelete` | client/src/backup/send.rs:276-290 | the sender deleting sent packfiles while packing goes on keeps the manager valid |
| `Packfiles.Manager.Flush` | client/src/backup/filesystem/packfile/pack.rs:82-89 | on success every tracked hash is in the index files or was lost by an earlier failure, never both; on failure lost is exactly what of a batch was not indexed, and nothing if all was known; it succeeds when no write fails and ids, nonces and index file numbers suffice |
| `Packfiles.Manager.GetBlob` | client/src/backup/filesystem/packfile/unpack.rs:23-83 | reads through the index with a file cursor; the result is that of the specification `Get`, and nothing is returned exactly for hashes not indexed |
| `Packfiles.Manager.Open` | client/src/backup/filesystem/packfile/mod.rs:95-111 | any valid folder opens, with exactly its index |
| `Packfiles.ReopenedReadsBack` | client/src/backup/filesystem/packfile/unpack.rs:23-83 | after reopening, every hash in the index reads back as the blob first entered under it, in this or any earlier session, without any error |
| `Storing.StoreAll` | client/src/backup/filesystem/packfile/pack.rs:31-89 | for every sequence of adds ending in a flush, every hash is indexed (save those lost to an earlier failed write) and its recorded blob is that of its first insertion, with its data and kind; index files stay within 50,000 entries if they are and none is overdue at first; it succeeds when the blobs are within 3 MiB, no write fails, and ids, nonces and index file numbers suffice |
| `Storing.MakeCalls` | client/src/backup/filesystem/packfile/pack.rs:31-204 | for every sequence of adds and flushes, going on after errors and ending in a successful flush: a hash ever queued is indexed if and only if it was lost neither before nor by a failing call; all are if and only if nothing failed but index writes with no hash left to enter; every index file is within 50,000 entries if and only if no packfile was written while an index file was overdue. Which call failed is a real result; what it failed at is ghost, since a packfile and an index file that cannot be written give the same I/O error |
| `Storing.FailedWriteLosesBlob` | client/src/backup/filesystem/packfile/pack.rs:122-183 | for every folder and every new blob: a failed write, then add and flush both succeed, and the blob cannot be read |
| `Trees.TreeRoundTrip` | client/src/backup/filesystem/dir_packer.rs:314-363 | a serialized tree deserializes to itself |
| `Trees.PieceFitsBlob` | client/src/backup/filesystem/dir_packer.rs:35 | a piece with at most 10,000 children and a bounded name fits the 3 MiB limit |
| `Trees.SplitSerializeTree` | client/src/backup/filesystem/dir_packer.rs:314-363 | the backward loop that links siblings builds exactly the chain of the tree |
| `Trees.ChainPieces` | client/src/backup/filesystem/dir_packer.rs:314-363 | every piece is a tree blob within the limit that decodes to at most 10,000 children |
| `Fetching.SiblingsFetch` | client/src/backup/filesystem/dir_unpacker.rs:104-130 | when the pieces' data can be read, following the sibling chain ends; it gives all children in order if and only if every piece is read as a tree, else it fails as not a tree |
| `Fetching.FullTreeFetches` | client/src/backup/filesystem/dir_unpacker.rs:104-130 | fetching a split tree by its root hash gives its kind, name, metadata and children under the same condition, else the same error |
| `DirWalk.GetNodePath` | client/src/backup/filesystem/dir_packer.rs:413-429 | the path collected by walking up to the root is the node's path |
| `DirWalk.AncestorsLater` | client/src/backup/filesystem/dir_packer.rs:89-132 | in a processing queue every directory is ahead of all its ancestors |
| `DirWalk.ScanDirectory` | client/src/backup/filesystem/dir_packer.rs:99-129 | scanning one directory keeps the walk's invariant and finds each of its subdirectories once |
| `DirWalk.BrowseDirTree` | client/src/backup/filesystem/dir_packer.rs:89-132 | the walk ends; the queue has every directory exactly once, each ahead of its parent |
| `TreePacking.LogTree` | client/src/backup/filesystem/dir_packer.rs:366-390 | a tree's blobs, last piece first, mention only hashes of trees logged before them, so stored trees are acyclic |
| `TreePacking.AddTreeToBlobs` | client/src/backup/filesystem/dir_packer.rs:366-390 | all pieces are accepted and the hash of the first is returned; it fails only for want of ids, nonces or index file numbers |
| `TreePacking.AddStep` | client/src/backup/filesystem/packfile/pack.rs:31-113 | each section of add_blob, with others acting in between: nothing tracked or written is forgotten, and once the blob is queued or found known its hash stays tracked |
| `FileTasks.StepChunk` | client/src/backup/filesystem/dir_packer.rs:285-311 | one section of adding a chunk; when the last is done its hash is kept and tracked; being asked to wait counts as success |
| `FileTasks.StepTask` | client/src/backup/filesystem/dir_packer.rs:231-311 | one section of add_blob by one file's task, chunks first and then the pieces of its tree, whatever other tasks have done since: what it has done stays logged, and at its end the file's tree is stored, with its metadata and with chunks that concatenate to the content, one chunk up to 1 MiB and those of FastCDC above; it never fails as too large |
| `FileTasks.RunTasks` | client/src/backup/filesystem/dir_packer.rs:160-197 | in every order of the locked sections of all tasks, all tasks end, and each file is stored or has failed; none fails when no write does and ids, nonces and index file numbers suffice |
| `DirPacker.PackFiles` | client/src/backup/filesystem/dir_packer.rs:160-212 | every listed file is added once, its calls of add_blob interleaving with the others' section by section, or counted as failed and left out; anything else is skipped; the hashes are collected in the order of the listing |
| `DirPacker.PackDirectory` | client/src/backup/filesystem/dir_packer.rs:144-214 | the directory's tree has exactly one hash for each packed subdirectory and file, and all of it is logged |
| `DirPacker.PackFilesInDirectory` | client/src/backup/filesystem/dir_packer.rs:137-225 | taking directories in queue order, each adds its hash to its parent once; the root's hash is that of a complete snapshot |
| `Backup.Pack` | client/src/backup/filesystem/dir_packer.rs:47-84 | on success the index files hold a snapshot of the tree, complete if no file failed; every tree in it has the size of its file or directory and the times known for it, in whole seconds below 2^63; every intermediate state of the folder is valid; when no write fails, index files stay within 50,000 entries, and if unused ids, nonces and index file numbers suffice it succeeds and no file fails |
| `Backup.PackedIsSnapshot` | client/src/backup/filesystem/dir_packer.rs:47-225 | what packing leaves is a snapshot: every kept path has a stored tree whose children are exactly its kept entries |
| `Backup.ReadsBackAsItself` | client/src/backup/filesystem/dir_packer.rs:285-311 | without a hash collision, a blob that was added reads back as itself if and only if the first blob entered under its hash had its kind |
| `Backup.Restore` | client/src/backup/filesystem/dir_unpacker.rs:14-72 | without a hash collision, unpacking after reopening gives a faithful copy, names, nesting, contents and nothing else, each file with its own time of last change if that is known and from 0 to 2^63 - 1 and with none otherwise, if and only if every tree of the snapshot came before any chunk with its bytes; else it ends with `NotATree` |
| `Snapshots.CopyIsFaithful` | client/src/backup/filesystem/dir_unpacker.rs:75-101 | a copy of a snapshot has under each path a directory where there was one, and where there was a file its bytes and its time |
| `Backup.CollisionFreeIsEnough` | client/src/backup/filesystem/dir_packer.rs:286-321 | what is packed goes under BLAKE3 of its data, so that no collision of BLAKE3 on it is enough |
| `Backup.NoClashIsEnough` | client/src/backup/filesystem/dir_unpacker.rs:118-130 | if no two different blobs share a hash, that condition holds |
| `KindClashes.ChunkBeforeTree` | client/src/backup/filesystem/dir_packer.rs:286-321 | for every folder and new tree of one piece: after a chunk with its bytes is added, the tree is added without error and cannot be fetched |
| `KindClashes.TreeBeforeChunk` | client/src/backup/filesystem/dir_unpacker.rs:118-130 | in the other order the tree is fetched as it was |
| `DirUnpacker.FetchTreeAndSiblings` | client/src/backup/filesystem/dir_unpacker.rs:104-115 | the sibling loop computes the full tree of the specification, errors included |
| `DirUnpacker.RestoreFile` | client/src/backup/filesystem/dir_unpacker.rs:75-101 | a file whose chunks can be read gets their concatenation and its recorded time |
| `DirUnpacker.ExpandDirectory` | client/src/backup/filesystem/dir_unpacker.rs:32-65 | restores every child of one directory and queues its subdirectories |
| `DirUnpacker.Unpack` | client/src/backup/filesystem/dir_unpacker.rs:14-72 | the worklist empties; when the data of a snapshot's blobs can be read, the result is the copy of all its paths if and only if every tree piece is read as a tree, else `NotATree` |
| `Matching.EveryRunBalances` | server/src/backup_request.rs:73-185 | under every interleaving with expiries and failing awaits, a client's requested bytes are its promised, queued, in-flight and discarded bytes |
| `Matching.NeverOverpromised` | server/src/backup_request.rs:73-185 | no client is ever matched for more than it asked |
| `Matching.EveryRunTable` | server/src/backup_request.rs:122-139 | the table never has more for a client than it was promised, and is symmetric but for calls half-way and failed rows back |
| `Matching.SymmetricUnlessWritesFailed` | server/src/backup_request.rs:122-139 | after every run from the start with no call between its two writes, the amounts of two clients for each other are equal if and only if the failed second writes of both directions are |
| `Matching.FailedSecondWriteLeavesHalf` | server/src/backup_request.rs:122-139 | for any two clients, a run whose second write fails and that ends with one row and none back |
| `Matching.EveryRunSane` | server/src/backup_request.rs:73-185 | every queued request is between 1 byte and 16 GiB; no client is matched with itself; no row is empty |
| `Matching.QueueStaysShort` | server/src/backup_request.rs:85-182 | with at most K calls in flight, queued requests, popped ones and pending pushes together never exceed K |
| `BackupRequests.Server.NotifyBoth` | server/src/backup_request.rs:94-120 | the outcome is that of the two awaits: an entry whose notification fails is dropped, a caller that cannot be told then ends the call, and otherwise they are matched |
| `BackupRequests.Server.SaveBoth` | server/src/backup_request.rs:122-139 | the outcome is that of the two awaits: both rows with one size, the first alone, or none |
| `BackupRequests.Server.Settle` | server/src/backup_request.rs:141-164 | the rest of a larger entry goes to the back of the queue; otherwise what is still needed is reported |
| `BackupRequests.Server.MatchQueued` | server/src/backup_request.rs:82-184 | the loop ends, is a run of the transition system, and for every sequence of outcomes of its awaits makes exactly the attempts, writes the rows and leaves the queue that the recursive matching `Serve` says |
| `BackupRequests.Server.Fulfill` | server/src/backup_request.rs:73-185 | the same for a whole call; refused exactly above 16 GiB; nothing happens for 0 bytes; the same amounts in both directions when it succeeds, and the greedy matching when its awaits succeed |
| `BackupRequests.RowsAreNotified` | server/src/backup_request.rs:94-139 | whatever fails, a row is written only between the caller and a client after both were told of this amount, one right after the other, with success |
| `BackupRequests.ServeIsGreedy` | server/src/backup_request.rs:73-185 | when no await fails, it is the greedy matching of the queue |
| `BackupRequests.ServesTheConnected` | server/src/backup_request.rs:94-184 | when only notifications of other clients fail, the call succeeds, and it is the greedy matching of the queue without the requests of clients that are not connected |
| `BackupRequests.GreedyShares` | server/src/backup_request.rs:66-72 | first come, first matched: each queued request gets what the earlier requests of other clients leave, the same in both directions |
| `BackupRequests.GreedyTakesAll` | server/src/backup_request.rs:85-182 | the caller gets all it asked for, or all that others have queued; a remainder is queued exactly if that is less, and then alone |
| `BackupRequests.GreedyConserves` | server/src/backup_request.rs:141-164 | no other client loses a byte: what it had queued is now in the table or still queued |
| `FileNames.HexRoundTrip` | client/src/backup/filesystem/file_utils.rs:14-25 | hexadecimal decoding inverts encoding, which uses lower-case digits |
| `FileNames.PackfilePathParses` | client/src/backup/filesystem/file_utils.rs:14-52 | a packfile's path parses back to its id; its name has 24 digits and its directory the first two of them |
| `FileNames.IndexNameParses` | client/src/backup/filesystem/file_utils.rs:28-57 | an index file's name has ten digits and parses back to its number |
| `FileNames.PathsAreDistinct` | client/src/backup/filesystem/file_utils.rs:40-57 | two files never share a path |
| `FileNames.NamesSortAsNumbers` | client/src/backup/filesystem/file_utils.rs:55-57 | index files sorted by name are in the order of their numbers |
| `Obfuscation.Obfuscate` | client/src/net_p2p/mod.rs:38-47 | the in-place loops over 4-byte chunks, for any length: bit k of byte i is set afterwards if and only if bit k of byte i and bit k of key byte i % 4 differed |
| `Obfuscation.XorBit` | client/src/net_p2p/mod.rs:38-47 | a bit of the exclusive or is set if and only if the two bits differ |
| `Obfuscation.ObfuscatedTwice` | client/src/net_p2p/mod.rs:38-65 | obfuscating twice gives the data back |
| `Peers.IsPeerAllowedToSendData` | client/src/net_p2p/received_files_writer.rs:100-108 | holds exactly while the bytes received are less than 16 MiB over those negotiated |
| `Peers.TestsAgree` | client/src/config/peers.rs:176-193 | with agreeing ledgers the sender's and the receiver's tests are the same; a sender that has counted less never gives up a peer that would accept |
| `Peers.PeerStore.AddOrIncrementPeer` | client/src/config/peers.rs:110-123 | adds a row or increases what is negotiated, and changes nothing else |
| `Peers.PeerStore.FindPeersWithStorage` | client/src/config/peers.rs:176-193 | exactly the peers that pass the sender's test, each once, by descending difference of what is negotiated and what has been transmitted |
| `Sessions.SessionGuarantees` | client/src/net_p2p/transport.rs:111-145 | files saved are the first of those sent, in order, without repetition; confirmed <= saved <= confirmed + 1; a send that returned has had its file saved; accounted bytes never exceed counted ones |
| `Sessions.HearKeeps` | client/src/net_p2p/transport.rs:57-108 | a delayed, repeated, foreign or missed acknowledgement keeps every guarantee |
| `Sessions.ReceiveKeeps` | client/src/net_p2p/receive.rs:81-106 | so does any message that reaches the receiver |
| `Transfers.EveryRunIsSafe` | client/src/net_p2p/received_files_writer.rs:53-73 | in every run with timeouts, cuts and replays the sessions keep their guarantees, peers store only genuine obfuscated files, and every packfile ever written is local or at a peer |
| `Transfers.NothingIsLost` | client/src/backup/send.rs:276-290 | deleting after an acknowledgement never deletes the last copy |
| `Transfers.EveryRunWithinQuota` | client/src/net_p2p/received_files_writer.rs:53-108 | with at most k open streams, where the check and the count of a file are separate steps, bytes received stay below negotiated + 16 MiB + k * 8 MiB |
| `Transfers.LedgersAgree` | client/src/config/peers.rs:148-173 | the sender's transmitted count never exceeds the receiver's received count |
| `Transfers.UnusedIsOk` | client/src/config/peers.rs:110-123 | all of this holds at the start, whatever the peers' keys |
| `Exchanges.NextFileGoesThrough` | client/src/net_p2p/transport.rs:111-145 | a session in step, with a file its peer would store, has a run of just this exchange: sent, validated, stored, counted, acknowledged, heard and let go of; then the session is in step again |
| `Exchanges.AllFilesGoThrough` | client/src/net_p2p/transport.rs:111-145 | one session can carry any number of files: if they are new to the peer, within 8 MiB each and the quota, there is a run after which the peer stores all of them and the packfiles are no longer local |
| `Exchanges.NewSessionCarriesAll` | client/src/net_p2p/transport.rs:39-145 | and so can a session newly opened for it, from any state with a nonce not used yet |
| `Receiving.PeerDataReceiver.SaveFile` | client/src/net_p2p/received_files_writer.rs:53-79 | stores if and only if the path is free and the peer known and within quota; stores the obfuscated bytes and counts them |
| `Receiving.PeerDataReceiver.HandleStream` | client/src/net_p2p/receive.rs:41-78 | accepts exactly the longest acceptable start of a stream; folder and ledger are those of the accepted messages; all of these are acknowledged but the last if that fails; each way to end, by close frame, socket error, refused message or failing acknowledgement, is characterised; if every message is signed, has this session's nonce and its place counted from 1, brings a file not stored yet and finds the quota not used up, and the acknowledgements go out, all are accepted, stored and acknowledged |
| `Receiving.AcceptedAreFirst` | client/src/net_p2p/receive.rs:81-106 | however genuine messages are mixed with others, those accepted are the sender's first, in order |
| `Receiving.ProcessAcks` | client/src/net_p2p/transport.rs:83-108 | makes known the numbers of the acknowledgements with the next header, and skips the others |
| `Receiving.NotifiedInOrder` | client/src/net_p2p/transport.rs:57-108 | whatever arrives, the numbers made known are 1, 2, 3 and so on, as far as the peer signed them |
| `Receiving.AllAreNotified` | client/src/net_p2p/transport.rs:57-108 | when the peer's acknowledgements come in order and none is missing, all are made known, whatever arrives between them |
| `Sending.Client.SendData` | client/src/net_p2p/transport.rs:111-145 | returns Ok if and only if the message goes out and what others do while the acknowledgement is awaited makes it heard; then the peer holds the file; deletes nothing and marks nothing as sent |
| `Turns.PromptPeerGetsAll` | client/src/net_p2p/transport.rs:111-145 | any number of files sent to a peer that has room for them and answers each while its acknowledgement is awaited go through, one after the other |
| `Sending.Client.SendSinglePackfile` | client/src/backup/send.rs:265-293 | succeeds if and only if that does and the bytes are counted and the file is deleted; on success deletes just this packfile, which a peer holds; on failure deletes nothing |
| `Sending.Client.SendPackfilesFromFolder` | client/src/backup/send.rs:179-204 | succeeds if and only if each goes through in turn; then all listed packfiles, and only they, are deleted, and held |
| `Sending.Client.SendIndex` | client/src/backup/send.rs:135-176 | sends exactly the numbers above all sent before, and succeeds if and only if each of them goes through; with an ascending listing all index files up to the highest sent stay held, even on failure, and all on success |
| `Sending.SendsAllIfAscending` | client/src/backup/send.rs:141-151 | all new index files of a listing are sent if and only if they are listed in ascending order |
| `Sending.UnorderedListingSkips` | client/src/backup/send.rs:147-151 | a listing in another order, and the file it leaves unsent |
| `Sending.Client.SendRounds` | client/src/backup/send.rs:37-132 | however others act at each await, when the loop is done peers hold every packfile, and every index file if the listings ascended; every round is exactly that of `Round`: done just if there is a connection, packing is over and all that was listed went through |
| `Sending.PromptRoundIsTheLast` | client/src/backup/send.rs:49-132 | when packing is over, a round with a peer that has room for everything and answers at once sends it all and ends the loop |
| `Restoring.StoredComesBack` | client/src/backup/restore_send.rs:45-89 | a file stored obfuscated is sent back under its own id with its own bytes |
| `Restoring.RestoreAllDataToPeer` | client/src/backup/restore_send.rs:22-94 | refused exactly within a minute of the last request let through, and otherwise recorded; the entries of both folders are sent, deobfuscated, in order, up to the first whose name does not parse or that cannot be sent, which is reported |
| `Handover.PackerMayWrite` | client/src/backup/mod.rs:62-63 | packing and sending run side by side: in every run so far, the packer's next write is a possible step |
| `Handover.AllWritten` | client/src/backup/mod.rs:62-63 | once all is written, the files of the run are those ever written to the client's folder, deleted ones included |
| `Restoring.FolderIsArchive` | client/src/backup/filesystem/packfile/pack.rs:172-182 | the files ever written to a valid folder are the packfiles and index files of its archive, whatever has been deleted since |
| `Restoring.PeerReturnsAll` | client/src/backup/restore_send.rs:44-89 | a peer returns exactly the files it stores, as the client wrote them |
| `Restoring.RestoreReceiver.SaveAll` | client/src/net_p2p/restore_files_writer.rs:24-54 | the restore folder has each file's last received content |
| `Restoring.RestoreFolderIsComplete` | client/src/net_p2p/restore_files_writer.rs:24-54 | in whatever order the peers' messages arrive, the folder is exactly what was written, if each file was held |
| `Restoring.RecoverBackup` | client/src/backup/filesystem/dir_unpacker.rs:14-72 | a tree that was packed while packfiles were sent away and deleted, of which every file ever written was held and returned, is rebuilt faithfully, file times included, under exactly the same condition on kinds |

## Left out

- The insides of AES-256-GCM, zstd, BLAKE3, HKDF, Ed25519 and FastCDC: functions with the hypotheses in `Primitives`. A message is accepted as signed only if it was; session nonces and packfile ids do not repeat.
- Random ids and nonces are given sequences; drawing from an empty one is the generator's failure. Ids are assumed not to be those of packfiles already sent away.
- Real filesystem behaviour: symbolic links, relative backup roots, memory maps, read errors, half-written files. A write happens as a whole or fails as a whole; which ones fail is any sequence of fewer than 2^32 outcomes, after which writes succeed. Unpacking starts from an empty destination.
- Names are byte strings of at most 765 bytes that are single path components; that they are valid UTF-8 is not checked.
- Restored directory times and the root's own name and time, which the original does not restore faithfully.
- Threads of the runtime: the tasks of `FileTasks` take turns at the sections of add_blob that hold a lock. Compressing and sealing, which share nothing but the random generator, belong to the section that queues.
- An overflowing index file counter panics in the original; here it is the error `IndexCounterOverflow`. So are other panics on drop, and the wrap-around of the counter of local bytes.
- `Packfiles.Manager.Open` takes the size of the packfile folder as a parameter; a header length that is too large to allocate is an I/O error.
- `Sending.Client.SendRounds`: any number of rounds of the loop, not its termination, which a missed acknowledgement can prevent. When a file does not go through, the round is exact up to that file; after it only that the connection is given up and nothing written or held is lost. Pausing and resuming are left out, as is the choice of peers beyond `FindPeersWithStorage`; any idle session may be offered.
- Delivery: after a missed acknowledgement a resend to the same peer is refused as a name collision. Nor is it claimed that every packfile fits the 8 MiB message limit.
- `Transfers.EveryRunIsSafe`: index files are not part of "local or at a peer", since the client keeps them.
- Expiry of queued requests is a step that may happen at any time; the five minutes are not modelled.
- Ledger arithmetic is unbounded, where the original has 64-bit columns; times of first and last contact are left out.
- HTTP, WebSocket, TLS, SQL text, the user interface, logging, progress counters and the plain map wrappers around connections would add only easy members.
