/** The files of a directory are backed up by tasks that run side by side. A task adds first the chunks of its
    file and then the pieces of the file's tree, one blob at a time and each in the sections of add_blob. */
module FileTasks {
  import opened Wrappers
  import opened ByteStrings
  import opened Primitives
  import opened PackfileFormat
  import opened Disks
  import opened BlobIndices
  import opened Packfiles
  import opened Trees
  import opened Snapshots
  import opened TreePacking
  import opened Sums

  /** A file above 1 MiB is cut into chunks. */
  const BLOB_DESIRED_TARGET_SIZE: nat := 1_048_576

  datatype FileTask =
    | NoFile
    | Chunking(pieces: seq<Bytes>, hashes: seq<Hash>, phase: AddPhase)
    | AddingTree(blobs: seq<Blob>, added: nat, phase: AddPhase)
    | Done(result: Result<Hash, PackfileError>)

  predicate Running(t: FileTask) {
    t.Chunking? || t.AddingTree?
  }

  predicate Failed(t: FileTask) {
    t.Done? && t.result.Err?
  }

  function PiecesOf(p: Primitives, content: Bytes): seq<Bytes> {
    if |content| > BLOB_DESIRED_TARGET_SIZE then p.chunks(content) else [content]
  }

  /** The blobs that a file's content is stored in. */
  ghost function ChunksOf(p: Primitives, content: Bytes): seq<Blob> {
    seq(|PiecesOf(p, content)|, i requires 0 <= i < |PiecesOf(p, content)| =>
      Blob(p.blake3(PiecesOf(p, content)[i]), FileChunk, PiecesOf(p, content)[i]))
  }

  ghost function TreeOf(p: Primitives, name: Name, entry: FsEntry): Tree
    requires entry.File? && |entry.content| < U64_LIMIT
  {
    Tree(FileTree, name, GetMetadata(entry), BlobHashes(ChunksOf(p, entry.content)), None)
  }

  /** The tree is that of the file, its chunks make up the content, and all of it is logged. A file of up to 1 MiB
      is one chunk, a larger one is cut. */
  ghost predicate FilePacked(p: Primitives, name: Name, entry: FsEntry, hash: Hash, tree: Tree, chunks: seq<Blob>,
                             log: seq<Blob>)
    requires entry.File? && |entry.content| < U64_LIMIT
  {
    Encodable(tree) && hash == RootHash(p, tree) && hash in TreeHashes(log) && StoredTree(p, tree, set b | b in log) &&
    tree.kind == FileTree && tree.name == name && tree.metadata == GetMetadata(entry) &&
    tree.children == BlobHashes(chunks) && Concat(BlobData(chunks)) == entry.content &&
    BlobData(chunks) == (if |entry.content| <= 1_048_576 then [entry.content] else p.chunks(entry.content)) &&
    forall b :: b in chunks ==> b in log
  }

  /** What a task can be started on. */
  predicate Suitable(name: Name, entry: FsEntry) {
    entry.File? ==> |entry.content| < U64_LIMIT && |name| <= NAME_MAX_BYTES
  }

  /** The first k of these have been logged. */
  ghost predicate Logged(blobs: seq<Blob>, k: nat, log: seq<Blob>) {
    k <= |blobs| && forall i :: 0 <= i < k ==> blobs[i] in log
  }

  /** How far a task has come, and that nothing of it is missing so far. */
  ghost predicate TaskOk(p: Primitives, name: Name, entry: FsEntry, t: FileTask, log: seq<Blob>, accepted: seq<Blob>) {
    Suitable(name, entry) && (t.NoFile? <==> !entry.File?) &&
    match t
    case NoFile => true
    case Chunking(pieces, hashes, phase) =>
      pieces == PiecesOf(p, entry.content) && |hashes| < |pieces| &&
      hashes == BlobHashes(ChunksOf(p, entry.content))[..|hashes|] &&
        Logged(ChunksOf(p, entry.content), |hashes|, log) &&
      (PhaseNumber(phase) >= 2 ==> ChunksOf(p, entry.content)[|hashes|] in accepted)
    case AddingTree(blobs, added, phase) =>
      Encodable(TreeOf(p, name, entry)) && blobs == Chain(p, TreeOf(p, name, entry)) && added < |blobs| &&
      Logged(ChunksOf(p, entry.content), |PiecesOf(p, entry.content)|, log) && Logged(blobs, added, accepted) &&
      (PhaseNumber(phase) >= 2 ==> blobs[added] in accepted)
    case Done(Ok(hash)) => FilePacked(p, name, entry, hash, TreeOf(p, name, entry), ChunksOf(p, entry.content), log)
    case Done(Err(e)) => e != BlobTooLarge
  }

  ghost predicate TasksOk(p: Primitives, names: seq<Name>, entries: seq<FsEntry>, tasks: seq<FileTask>, log: seq<Blob>,
                          accepted: seq<Blob>)
  {
    |tasks| == |names| == |entries| && forall i :: 0 <= i < |tasks| ==>
      TaskOk(p, names[i], entries[i], tasks[i], log, accepted)
  }

  /** Blobs that a task has still to add, at most, the present one included. */
  function ToAdd(t: FileTask): nat {
    match t
    case Chunking(pieces, hashes, _) => if |hashes| < |pieces| then 2 * |pieces| + 1 - |hashes| else 0
    case AddingTree(blobs, added, _) => if added < |blobs| then |blobs| - added else 0
    case _ => 0
  }

  /** Sections of add_blob that a task has still to run, at most. */
  function Left(t: FileTask): nat {
    if ToAdd(t) == 0 then 0 else 4 * ToAdd(t) - PhaseNumber(t.phase)
  }

  /** Blobs that a task has still to queue, at most. */
  function ToQueue(t: FileTask): nat {
    if ToAdd(t) > 0 && PhaseNumber(t.phase) >= 2 then ToAdd(t) - 1 else ToAdd(t)
  }

  /** At most so many calls to add_blob are made for a file of this size. */
  function CallsFor(size: nat): nat {
    2 * size + 3
  }

  /** A task that has not begun yet. */
  function NewTask(p: Primitives, entry: FsEntry): FileTask {
    if entry.File? then Chunking(PiecesOf(p, entry.content), [], Checking) else NoFile
  }

  lemma {:induction false} PiecesMakeContent(p: Primitives, content: Bytes)
    requires Lawful(p)
    ensures var pieces := PiecesOf(p, content);
            Concat(pieces) == content && 0 < |pieces| <= |content| + 1 && forall c :: c in pieces ==> |c| <= BLOB_MAX
    ensures BlobData(ChunksOf(p, content)) == PiecesOf(p, content)
  {
    if |content| > BLOB_DESIRED_TARGET_SIZE {
      assert Concat(p.chunks(content)) == content;
      assert p.chunks(content) != [];
    } else {
      assert PiecesOf(p, content)[1..] == [];
    }
  }

  lemma {:induction false} NewTaskOk(p: Primitives, name: Name, entry: FsEntry, log: seq<Blob>, accepted: seq<Blob>)
    requires Lawful(p) && Suitable(name, entry)
    ensures TaskOk(p, name, entry, NewTask(p, entry), log, accepted)
    ensures ToQueue(NewTask(p, entry)) <= if entry.File? then CallsFor(|entry.content|) else 0
  {
    hide PiecesOf, Lawful, ChunksOf;
    if entry.File? {
      PiecesMakeContent(p, entry.content);
      assert BlobHashes(ChunksOf(p, entry.content))[..0] == [];
    }
  }

  lemma {:induction false} NewTasksQueue(p: Primitives, names: seq<Name>, entries: seq<FsEntry>, largest: nat)
    requires Lawful(p) && |names| == |entries| && forall i :: 0 <= i < |names| ==> Suitable(names[i], entries[i])
    requires forall e :: e in entries && e.File? ==> |e.content| <= largest
    ensures Sum(seq(|entries|, i requires 0 <= i < |entries| => NewTask(p, entries[i])),
            ToQueue) <= |entries| * CallsFor(largest)
  {
    hide Lawful, NewTask, ToQueue;
    var tasks := seq(|entries|, i requires 0 <= i < |entries| => NewTask(p, entries[i]));
    if entries != [] {
      var rest := entries[1..];
      assert tasks[1..] == seq(|rest|, i requires 0 <= i < |rest| => NewTask(p, rest[i]));
      assert forall i :: 0 <= i < |rest| ==> names[1..][i] == names[i + 1] && rest[i] == entries[i + 1];
      NewTasksQueue(p, names[1..], rest, largest);
      NewTaskOk(p, names[0], entries[0], [], []);
      assert entries[0] in entries;
      assert |entries| * CallsFor(largest) == CallsFor(largest) + |rest| * CallsFor(largest);
    }
  }

  lemma {:induction false} TaskStays(p: Primitives, name: Name, entry: FsEntry, t: FileTask, log: seq<Blob>,
                                     accepted: seq<Blob>, log': seq<Blob>, accepted': seq<Blob>)
    requires TaskOk(p, name, entry, t, log, accepted) && log <= log' && accepted <= accepted'
    ensures TaskOk(p, name, entry, t, log', accepted')
  {
    hide PiecesOf, ChunksOf, RootHash, BlobHashes, BlobData;
  }

  /** Just past the last chunk. */
  lemma {:induction false} ChunksAdded(p: Primitives, name: Name, entry: FsEntry, hashes: seq<Hash>)
    requires Lawful(p) && entry.File? && Suitable(name, entry)
    requires hashes == BlobHashes(ChunksOf(p, entry.content))
    ensures Encodable(TreeOf(p, name, entry)) &&
            TreeOf(p, name, entry) == Tree(FileTree, name, GetMetadata(entry), hashes, None)
    ensures 0 < |Chain(p, TreeOf(p, name, entry))| <= |PiecesOf(p, entry.content)| + 1
  {
    PiecesMakeContent(p, entry.content);
    hide PiecesOf, Lawful;
    ChainLength(p, TreeOf(p, name, entry));
  }

  /** The next chunk, at its end. */
  lemma {:induction false} OneMoreChunk(p: Primitives, content: Bytes, hashes: seq<Hash>, log: seq<Blob>, blob: Blob)
    requires |hashes| < |PiecesOf(p, content)| && hashes == BlobHashes(ChunksOf(p, content))[..|hashes|]
    requires Logged(ChunksOf(p, content), |hashes|, log)
    requires blob == Blob(p.blake3(PiecesOf(p, content)[|hashes|]), FileChunk, PiecesOf(p, content)[|hashes|])
    ensures hashes + [blob.hash] == BlobHashes(ChunksOf(p, content))[..|hashes| + 1]
    ensures Logged(ChunksOf(p, content), |hashes| + 1, log + [blob])
  {
    hide PiecesOf;
  }

  /** At its end: the file's tree is logged when all the pieces have been accepted. */
  lemma {:induction false} TreeAdded(p: Primitives, name: Name, entry: FsEntry, log: seq<Blob>)
    requires Lawful(p) && entry.File? && Suitable(name, entry) && Encodable(TreeOf(p, name, entry)) && LogOk(log)
    requires Logged(ChunksOf(p, entry.content), |PiecesOf(p, entry.content)|, log)
    ensures var log' := log + LogChain(p, TreeOf(p, name, entry));
            LogOk(log') &&
            FilePacked(p, name, entry, RootHash(p, TreeOf(p, name, entry)), TreeOf(p, name, entry),
                       ChunksOf(p, entry.content), log')
  {
    hide LogOk, Lawful, LogChain, RootHash, Encodable;
    PiecesMakeContent(p, entry.content);
    var tree, chunks := TreeOf(p, name, entry), ChunksOf(p, entry.content);
    LogTree(p, log, tree);
    StoredByLog(p, tree, log);
    forall b | b in chunks
      ensures b in log
    {
      var i :| 0 <= i < |chunks| && chunks[i] == b;
    }
  }

  lemma {:induction false} AllHashes(p: Primitives, content: Bytes, hashes: seq<Hash>)
    requires |hashes| == |PiecesOf(p, content)| && hashes == BlobHashes(ChunksOf(p, content))[..|hashes|]
    ensures hashes == BlobHashes(ChunksOf(p, content))
  {
  }

  lemma {:induction false} AllAccepted(packer: Manager, p: Primitives, name: Name, entry: FsEntry, t: FileTask,
                                       log: seq<Blob>, accepted0: seq<Blob>, accepted: seq<Blob>)
    requires TaskOk(p, name, entry, t, log, accepted0) && t.AddingTree? && t.added + 1 == |t.blobs|
    requires accepted == accepted0 + [t.blobs[t.added]] && Accepted(packer, accepted) && Accepted(packer, log)
    ensures Accepted(packer, log + LogChain(p, TreeOf(p, name, entry)))
  {
    hide Manager.Tracked, Chain, LogChain, TreeOf, Encodable, ChunksOf, PiecesOf;
    assert forall i :: 0 <= i < |t.blobs| ==> t.blobs[i] in accepted;
    AcceptedLog(p, packer, log, TreeOf(p, name, entry));
  }

  lemma {:induction false} InAccepted(packer: Manager, accepted: seq<Blob>, blob: Blob)
    requires Accepted(packer, accepted)
    ensures blob in accepted ==> Accepted(packer, [blob])
  {
    hide Manager.Tracked;
  }

  lemma {:induction false} OneMoreAccepted(packer: Manager, accepted: seq<Blob>, blob: Blob)
    requires Accepted(packer, accepted) && Accepted(packer, [blob])
    ensures Accepted(packer, accepted + [blob])
  {
    hide Manager.Tracked;
    assert blob in [blob];
  }

  lemma {:induction false} FailedOk(p: Primitives, name: Name, entry: FsEntry, e: PackfileError, log: seq<Blob>,
                                    accepted: seq<Blob>)
    requires Suitable(name, entry) && entry.File? && e != BlobTooLarge
    ensures TaskOk(p, name, entry, Done(Err(e)), log, accepted)
  {
  }

  lemma {:induction false} ChunkingFacts(p: Primitives, name: Name, entry: FsEntry, t: FileTask, log: seq<Blob>,
                                         accepted: seq<Blob>)
    requires Lawful(p) && TaskOk(p, name, entry, t, log, accepted) && t.Chunking?
    ensures entry.File? && Suitable(name, entry) && |t.hashes| < |t.pieces| && |t.pieces[|t.hashes|]| <= BLOB_MAX
    ensures PhaseNumber(t.phase) >= 2 ==>
              Blob(p.blake3(t.pieces[|t.hashes|]), FileChunk, t.pieces[|t.hashes|]) in accepted
    ensures |t.hashes| + 1 == |t.pieces| ==> |t.pieces| < U64_LIMIT
    ensures var tree := Tree(FileTree, name, GetMetadata(entry), t.hashes + [p.blake3(t.pieces[|t.hashes|])], None);
            |t.hashes| + 1 == |t.pieces| ==> Encodable(tree)
  {
    PiecesMakeContent(p, entry.content);
    hide PiecesOf, Lawful;
    assert t.pieces[|t.hashes|] in t.pieces;
  }

  /** A section of add_blob that is not the last for its blob. */
  lemma {:induction false} BlobGoesOn(p: Primitives, name: Name, entry: FsEntry, t0: FileTask, log: seq<Blob>,
      accepted0: seq<Blob>,
                                      blob: Blob, phase: AddPhase, accepted: seq<Blob>, t: FileTask)
    requires TaskOk(p, name, entry, t0, log, accepted0) && accepted0 <= accepted
    requires Running(t0) && PhaseNumber(phase) > PhaseNumber(t0.phase)
    requires PhaseNumber(phase) >= 2 ==> blob in accepted
    requires if t0.Chunking? then
               |t0.hashes| < |t0.pieces| && blob == Blob(p.blake3(t0.pieces[|t0.hashes|]), FileChunk,
                 t0.pieces[|t0.hashes|]) &&
               t == Chunking(t0.pieces, t0.hashes, phase)
             else
               t0.AddingTree? && t0.added < |t0.blobs| && blob == t0.blobs[t0.added] &&
                 t == AddingTree(t0.blobs, t0.added, phase)
    ensures TaskOk(p, name, entry, t, log, accepted) && Left(t) < Left(t0)
    ensures ToQueue(t) == if PhaseNumber(t0.phase) < 2 && PhaseNumber(phase) >= 2 then ToQueue(t0) - 1 else ToQueue(t0)
  {
    hide PiecesOf, TreeOf, Chain, Encodable, FilePacked;
  }

  lemma {:induction false} ChunkAdded(p: Primitives, name: Name, entry: FsEntry, t0: FileTask, log: seq<Blob>,
                                      accepted: seq<Blob>, blob: Blob, t: FileTask)
    requires Lawful(p) && TaskOk(p, name, entry, t0, log, accepted) && t0.Chunking? && |t0.hashes| < |t0.pieces|
    requires blob == Blob(p.blake3(t0.pieces[|t0.hashes|]), FileChunk, t0.pieces[|t0.hashes|])
    requires var hashes := t0.hashes + [blob.hash];
             if |hashes| < |t0.pieces| then t == Chunking(t0.pieces, hashes, Checking)
             else
               entry.File? && Suitable(name, entry) &&
               Encodable(Tree(FileTree, name, GetMetadata(entry), hashes, None)) &&
               t == AddingTree(Chain(p, Tree(FileTree, name, GetMetadata(entry), hashes, None)), 0, Checking)
    ensures TaskOk(p, name, entry, t, log + [blob], accepted) && Left(t) < Left(t0) && ToQueue(t) <= ToQueue(t0)
  {
    hide PiecesOf, ChunksOf, Lawful, Chain, Encodable;
    var hashes := t0.hashes + [blob.hash];
    OneMoreChunk(p, entry.content, t0.hashes, log, blob);
    if |hashes| == |t0.pieces| {
      AllHashes(p, entry.content, hashes);
      ChunksAdded(p, name, entry, hashes);
    }
  }

  lemma {:induction false} AddingFacts(p: Primitives, name: Name, entry: FsEntry, t: FileTask, log: seq<Blob>,
                                       accepted: seq<Blob>)
    requires TaskOk(p, name, entry, t, log, accepted) && t.AddingTree?
    ensures entry.File? && Suitable(name, entry) && Encodable(TreeOf(p, name, entry)) && t.added < |t.blobs|
    ensures |t.blobs[t.added].data| <= BLOB_MAX && t.blobs[t.added].hash == p.blake3(t.blobs[t.added].data)
    ensures PhaseNumber(t.phase) >= 2 ==> t.blobs[t.added] in accepted
  {
    hide PiecesOf, ChunksOf, Chain, TreeOf, Encodable;
    ChainPieces(p, TreeOf(p, name, entry), t.added);
  }

  lemma {:induction false} PieceAdded(p: Primitives, name: Name, entry: FsEntry, t0: FileTask, log0: seq<Blob>,
                                      accepted0: seq<Blob>, t: FileTask, log: seq<Blob>, accepted: seq<Blob>)
    requires Lawful(p) && LogOk(log0) && TaskOk(p, name, entry, t0, log0, accepted0) && t0.AddingTree?
    requires entry.File? && Suitable(name, entry) && Encodable(TreeOf(p, name, entry))
    requires t0.added < |t0.blobs| && accepted == accepted0 + [t0.blobs[t0.added]]
    requires t == if t0.added + 1 < |t0.blobs| then AddingTree(t0.blobs, t0.added + 1, Checking)
                  else Done(Ok(t0.blobs[0].hash))
    requires log == if t0.added + 1 < |t0.blobs| then log0 else log0 + LogChain(p, TreeOf(p, name, entry))
    ensures TaskOk(p, name, entry, t, log, accepted) && LogOk(log) && Left(t) < Left(t0) && ToQueue(t) <= ToQueue(t0)
  {
    hide PiecesOf, ChunksOf, Lawful, Chain, LogChain, TreeOf, Encodable, LogOk, FilePacked, RootHash;
    if t.Done? {
      TreeAdded(p, name, entry, log0);
      RootIsFirst(p, TreeOf(p, name, entry));
    }
  }

  lemma {:induction false} RootIsFirst(p: Primitives, t: Tree)
    requires Encodable(t)
    ensures Chain(p, t) != [] && RootHash(p, t) == Chain(p, t)[0].hash
  {
  }

  /** Runs one section of adding a chunk; being asked to wait counts as success. After the last chunk the tree
      of the file is put together and split. */
  method StepChunk(packer: Manager, name: Name, entry: FsEntry, t0: FileTask, ghost log0: seq<Blob>,
                   ghost accepted0: seq<Blob>)
      returns (t: FileTask, ghost log: seq<Blob>, ghost accepted: seq<Blob>)
    requires packer.Valid() && Lawful(packer.disk.p)
    requires LogOk(log0) && Accepted(packer, log0) && Accepted(packer, accepted0)
    requires TaskOk(packer.disk.p, name, entry, t0, log0, accepted0) && t0.Chunking?
    modifies packer, packer.index, packer.disk
    ensures packer.Valid() && Grown(packer)
    ensures log0 <= log && accepted0 <= accepted && LogOk(log) && Accepted(packer, log) && Accepted(packer, accepted)
    ensures TaskOk(packer.disk.p, name, entry, t, log, accepted) && Left(t) < Left(t0)
    ensures !Failed(t) ==> packer.index.unsaved == old(packer.index.unsaved)
    ensures ToQueue(t) <= ToQueue(t0) && packer.Spare() >= old(packer.Spare()) - (ToQueue(t0) - ToQueue(t))
    ensures old(packer.Spare()) >= ToQueue(t0) ==> !Failed(t)
  {
    hide Manager.Valid, Manager.Tracked, Manager.Spare, Disk.Complete, LogOk, Lawful, Chain, LogChain, TaskOk;
    log, accepted := log0, accepted0;
    ChunkingFacts(packer.disk.p, name, entry, t0, log, accepted);
    var pieces, hashes := t0.pieces, t0.hashes;
    var chunk := Blob(packer.disk.p.blake3(pieces[|hashes|]), FileChunk, pieces[|hashes|]);
    InAccepted(packer, accepted, chunk);
    var progress := AddStep(packer, chunk, t0.phase);
    if Refused(progress) {
      t := Done(Err(progress.reply.error));
      FailedOk(packer.disk.p, name, entry, progress.reply.error, log, accepted);
      return;
    }
    if Entered(progress) {
      OneMoreAccepted(packer, accepted, chunk);
      accepted := accepted + [chunk];
    }
    if progress.Going? {
      t := Chunking(pieces, hashes, progress.phase);
      BlobGoesOn(packer.disk.p, name, entry, t0, log, accepted0, chunk, progress.phase, accepted, t);
      return;
    }
    LogSnoc(log, chunk);
    OneMoreAccepted(packer, log, chunk);
    log := log + [chunk];
    TaskStays(packer.disk.p, name, entry, t0, log0, accepted0, log0, accepted);
    var hashes' := hashes + [chunk.hash];
    if |hashes'| < |pieces| {
      t := Chunking(pieces, hashes', Checking);
    } else {
      var blobs := SplitSerializeTree(packer.disk.p, Tree(FileTree, name, GetMetadata(entry), hashes', None));
      t := AddingTree(blobs, 0, Checking);
    }
    ChunkAdded(packer.disk.p, name, entry, t0, log0, accepted, chunk, t);
  }

  /** Runs one section of adding a piece of the tree; after the last piece the file is done. */
  method StepTree(packer: Manager, name: Name, entry: FsEntry, t0: FileTask, ghost log0: seq<Blob>,
                  ghost accepted0: seq<Blob>)
      returns (t: FileTask, ghost log: seq<Blob>, ghost accepted: seq<Blob>)
    requires packer.Valid() && Lawful(packer.disk.p)
    requires LogOk(log0) && Accepted(packer, log0) && Accepted(packer, accepted0)
    requires TaskOk(packer.disk.p, name, entry, t0, log0, accepted0) && t0.AddingTree?
    modifies packer, packer.index, packer.disk
    ensures packer.Valid() && Grown(packer)
    ensures log0 <= log && accepted0 <= accepted && LogOk(log) && Accepted(packer, log) && Accepted(packer, accepted)
    ensures TaskOk(packer.disk.p, name, entry, t, log, accepted) && Left(t) < Left(t0)
    ensures !Failed(t) ==> packer.index.unsaved == old(packer.index.unsaved)
    ensures ToQueue(t) <= ToQueue(t0) && packer.Spare() >= old(packer.Spare()) - (ToQueue(t0) - ToQueue(t))
    ensures old(packer.Spare()) >= ToQueue(t0) ==> !Failed(t)
  {
    hide Manager.Valid, Manager.Tracked, Manager.Spare, Disk.Complete, LogOk, Lawful, Chain, LogChain, TaskOk, TreeOf;
    log, accepted := log0, accepted0;
    AddingFacts(packer.disk.p, name, entry, t0, log, accepted);
    var blobs, added := t0.blobs, t0.added;
    InAccepted(packer, accepted, blobs[added]);
    var progress := AddStep(packer, blobs[added], t0.phase);
    if Refused(progress) {
      t := Done(Err(progress.reply.error));
      FailedOk(packer.disk.p, name, entry, progress.reply.error, log, accepted);
      return;
    }
    if Entered(progress) {
      OneMoreAccepted(packer, accepted, blobs[added]);
      accepted := accepted + [blobs[added]];
    }
    if progress.Going? {
      t := AddingTree(blobs, added, progress.phase);
      BlobGoesOn(packer.disk.p, name, entry, t0, log, accepted0, blobs[added], progress.phase, accepted, t);
      return;
    }
    if added + 1 < |blobs| {
      t := AddingTree(blobs, added + 1, Checking);
    } else {
      AllAccepted(packer, packer.disk.p, name, entry, t0, log, accepted0, accepted);
      log := log + LogChain(packer.disk.p, TreeOf(packer.disk.p, name, entry));
      t := Done(Ok(blobs[0].hash));
    }
    PieceAdded(packer.disk.p, name, entry, t0, log0, accepted0, t, log, accepted);
  }

  /** Runs a task up to the end of its next section of add_blob, whatever other tasks have done since its last. */
  method StepTask(packer: Manager, name: Name, entry: FsEntry, t0: FileTask, ghost log0: seq<Blob>,
                  ghost accepted0: seq<Blob>)
      returns (t: FileTask, ghost log: seq<Blob>, ghost accepted: seq<Blob>)
    requires packer.Valid() && Lawful(packer.disk.p)
    requires LogOk(log0) && Accepted(packer, log0) && Accepted(packer, accepted0)
    requires TaskOk(packer.disk.p, name, entry, t0, log0, accepted0) && Running(t0)
    modifies packer, packer.index, packer.disk
    ensures packer.Valid() && Grown(packer)
    ensures log0 <= log && accepted0 <= accepted && LogOk(log) && Accepted(packer, log) && Accepted(packer, accepted)
    ensures TaskOk(packer.disk.p, name, entry, t, log, accepted) && Left(t) < Left(t0)
    ensures !Failed(t) ==> packer.index.unsaved == old(packer.index.unsaved)
    ensures ToQueue(t) <= ToQueue(t0) && packer.Spare() >= old(packer.Spare()) - (ToQueue(t0) - ToQueue(t))
    ensures old(packer.Spare()) >= ToQueue(t0) ==> !Failed(t)
  {
    if t0.Chunking? {
      t, log, accepted := StepChunk(packer, name, entry, t0, log0, accepted0);
    } else {
      t, log, accepted := StepTree(packer, name, entry, t0, log0, accepted0);
    }
  }

  ghost predicate NoneFailed(tasks: seq<FileTask>) {
    forall t :: t in tasks ==> !Failed(t)
  }

  lemma {:induction false} FailedAfter(tasks: seq<FileTask>, i: nat, t: FileTask)
    requires i < |tasks| && !Failed(tasks[i])
    ensures NoneFailed(tasks[i := t]) <==> NoneFailed(tasks) && !Failed(t)
  {
    if NoneFailed(tasks[i := t]) {
      assert tasks[i := t][i] == t;
      forall u | u in tasks
        ensures !Failed(u)
      {
        var j :| 0 <= j < |tasks| && tasks[j] == u;
        assert j != i ==> tasks[i := t][j] == u;
      }
    }
  }

  /** Any one of the tasks that are not done takes its next step. */
  method StepAny(packer: Manager, names: seq<Name>, entries: seq<FsEntry>, tasks0: seq<FileTask>,
                 ghost log0: seq<Blob>, ghost accepted0: seq<Blob>)
      returns (tasks: seq<FileTask>, ghost log: seq<Blob>, ghost accepted: seq<Blob>)
    requires packer.Valid() && Lawful(packer.disk.p)
    requires LogOk(log0) && Accepted(packer, log0) && Accepted(packer, accepted0)
    requires TasksOk(packer.disk.p, names, entries, tasks0, log0, accepted0)
    requires exists i :: 0 <= i < |tasks0| && Running(tasks0[i])
    modifies packer, packer.index, packer.disk
    ensures packer.Valid() && Grown(packer)
    ensures log0 <= log && LogOk(log) && Accepted(packer, log) && Accepted(packer, accepted)
    ensures TasksOk(packer.disk.p, names, entries, tasks, log, accepted) && Sum(tasks, Left) < Sum(tasks0, Left)
    ensures NoneFailed(tasks) ==> NoneFailed(tasks0) && packer.index.unsaved == old(packer.index.unsaved)
    ensures Sum(tasks, ToQueue) <= Sum(tasks0, ToQueue)
    ensures packer.Spare() >= old(packer.Spare()) - (Sum(tasks0, ToQueue) - Sum(tasks, ToQueue))
    ensures old(packer.Spare()) >= Sum(tasks0, ToQueue) && NoneFailed(tasks0) ==> NoneFailed(tasks)
  {
    hide Disk.Valid, Manager.Valid, Manager.Tracked, Manager.Spare, Disk.Complete, BlobIndex.Trim, LogOk, Lawful,
         TaskOk, Left, ToQueue, Accepted, Sum, NoneFailed;
    var i :| 0 <= i < |tasks0| && Running(tasks0[i]);
    SumSplit(tasks0, i, ToQueue);
    var t;
    t, log, accepted := StepTask(packer, names[i], entries[i], tasks0[i], log0, accepted0);
    SumUpdate(tasks0, i, t, Left);
    SumUpdate(tasks0, i, t, ToQueue);
    FailedAfter(tasks0, i, t);
    forall j | 0 <= j < |tasks0| && j != i
      ensures TaskOk(packer.disk.p, names[j], entries[j], tasks0[j], log, accepted)
    {
      TaskStays(packer.disk.p, names[j], entries[j], tasks0[j], log0, accepted0, log, accepted);
    }
    tasks := tasks0[i := t];
  }

  /** Runs the tasks of some files until all are done, in whatever order their sections of add_blob come. A file that
      could
      be added is logged with its tree and all its chunks. */
  method RunTasks(packer: Manager, names: seq<Name>, entries: seq<FsEntry>, ghost log0: seq<Blob>, ghost largest: nat)
      returns (tasks: seq<FileTask>, ghost log: seq<Blob>, ghost accepted: seq<Blob>)
    requires packer.Valid() && Lawful(packer.disk.p)
    requires |names| == |entries| && forall i :: 0 <= i < |names| ==> Suitable(names[i], entries[i])
    requires LogOk(log0) && Accepted(packer, log0)
    modifies packer, packer.index, packer.disk
    ensures packer.Valid() && Grown(packer)
    ensures log0 <= log && LogOk(log) && Accepted(packer, log)
    ensures TasksOk(packer.disk.p, names, entries, tasks, log, accepted) && forall t :: t in tasks ==> !Running(t)
    ensures NoneFailed(tasks) ==> packer.index.unsaved == old(packer.index.unsaved)
    ensures (forall e :: e in entries && e.File? ==> |e.content| <= largest) ==>
              packer.Spare() >= old(packer.Spare()) - |entries| * CallsFor(largest) &&
              (old(packer.Spare()) >= |entries| * CallsFor(largest) ==> NoneFailed(tasks))
  {
    hide Disk.Valid, Manager.Valid, Manager.Tracked, Manager.Spare, Disk.Complete, BlobIndex.Trim, LogOk, Lawful,
         TaskOk, TasksOk, NoneFailed, Left, ToQueue, Accepted, NewTask, Sum, CallsFor;
    var p := packer.disk.p;
    log, accepted := log0, [];
    NothingAccepted(packer);
    tasks := seq(|entries|, i requires 0 <= i < |entries| => NewTask(p, entries[i]));
    StartsOk(p, names, entries, log);
    ghost var budget := Sum(tasks, ToQueue);
    if forall e :: e in entries && e.File? ==> |e.content| <= largest {
      NewTasksQueue(p, names, entries, largest);
    }
    while exists i :: 0 <= i < |tasks| && Running(tasks[i])
      invariant packer.Valid() && Grown(packer)
      invariant log0 <= log && LogOk(log) && Accepted(packer, log) && Accepted(packer, accepted)
      invariant TasksOk(p, names, entries, tasks, log, accepted)
      invariant NoneFailed(tasks) ==> packer.index.unsaved == old(packer.index.unsaved)
      invariant packer.Spare() >= old(packer.Spare()) - (budget - Sum(tasks, ToQueue))
      invariant old(packer.Spare()) >= budget ==> NoneFailed(tasks)
      invariant Sum(tasks, ToQueue) <= budget
      decreases Sum(tasks, Left)
    {
      tasks, log, accepted := StepAny(packer, names, entries, tasks, log, accepted);
    }
  }

  lemma {:induction false} NothingAccepted(packer: Manager)
    ensures Accepted(packer, [])
  {
  }

  lemma {:induction false} StartsOk(p: Primitives, names: seq<Name>, entries: seq<FsEntry>, log: seq<Blob>)
    requires Lawful(p) && |names| == |entries| && forall i :: 0 <= i < |names| ==> Suitable(names[i], entries[i])
    ensures var tasks := seq(|entries|, i requires 0 <= i < |entries| => NewTask(p, entries[i]));
            TasksOk(p, names, entries, tasks, log, []) && NoneFailed(tasks)
  {
    hide Lawful, TaskOk;
    forall i | 0 <= i < |entries|
      ensures TaskOk(p, names[i], entries[i], NewTask(p, entries[i]), log, [])
    {
      NewTaskOk(p, names[i], entries[i], log, []);
    }
  }
}
