/** A whole backup and its restore. */
module Backup {
  import opened Wrappers
  import opened ByteStrings
  import opened Primitives
  import opened PackfileFormat
  import opened Archives
  import opened Disks
  import opened BlobIndices
  import opened Packfiles
  import opened Trees
  import opened Fetching
  import opened Snapshots
  import opened TreePacking
  import opened DirWalk
  import opened DirPacker
  import opened DirUnpacker

  /** BLAKE3 has not collided on these blobs: whatever else was offered under one of their hashes, in this or
      an earlier session, has the same data. */
  ghost predicate NoCollision(log: seq<Blob>, offered: set<Blob>) {
    forall a, b :: a in offered && b in log && a.hash == b.hash ==> a.data == b.data
  }

  /** If every offered blob goes under BLAKE3 of its data, it is enough that BLAKE3 has not collided on the
      data of the offered blobs. */
  lemma {:induction false} CollisionFreeIsEnough(p: Primitives, log: seq<Blob>, offered: set<Blob>)
    requires Hashed(p, offered) && forall b :: b in log ==> b in offered
    requires forall a, b :: a in offered && b in offered && p.blake3(a.data) == p.blake3(b.data) ==> a.data == b.data
    ensures NoCollision(log, offered)
  {
  }

  /** The blob first entered with the bytes of a tree of the snapshot was that of a tree, and no file chunk. */
  ghost predicate TreesFirst(p: Primitives, s: Snapshot, first: map<Hash, BlobEncrypted>) {
    forall q :: q in s.trees && Encodable(s.trees[q]) ==> ChainFirst(Chain(p, s.trees[q]), first)
  }

  ghost predicate ChainFirst(blobs: seq<Blob>, first: map<Hash, BlobEncrypted>) {
    forall i :: 0 <= i < |blobs| ==> blobs[i].hash in first && first[blobs[i].hash].kind == TreeBlob
  }

  /** What pack leaves behind: a snapshot whose blobs are all in the index files, save for those lost to
      failed packfile writes. */
  ghost predicate Packed(p: Primitives, fs: Fs, s: Snapshot, log: seq<Blob>, omitted: set<Path>, root: Hash,
                         a: Archive, offered: set<Blob>, unsaved: set<Hash>)
  {
    SnapshotOf(p, fs, s, Stored(log)) && LogOk(log) &&
    Encodable(s.trees[[]]) && root == RootHash(p, s.trees[[]]) && root in TreeHashes(log) &&
    (forall q :: q in fs && fs[q].Directory? ==> q in s.trees) &&
    (forall q :: q in fs && fs[q].File? ==> q in s.trees || q in omitted) &&
    forall b :: b in log ==> b in offered && (b.hash in HashSet(Flat(a)) || b.hash in unsaved)
  }

  lemma {:induction false} PackedIsSnapshot(p: Primitives, fs: Fs, s: Snapshot, log: seq<Blob>)
    requires WellFormed(fs)
    requires Packing(p, fs, s, Directories(fs), Directories(fs), log) && [] in s.trees
    ensures SnapshotOf(p, fs, s, Stored(log))
    ensures Encodable(s.trees[[]]) && RootHash(p, s.trees[[]]) in TreeHashes(log)
  {
    hide DirOk, FileOk, RootHash;
    assert PathOk(p, fs, s, Directories(fs), Directories(fs), log, []);
    forall q | q in s.trees
      ensures q in fs && StoredTree(p, s.trees[q], Stored(log))
      ensures q != [] ==> Parent(q) in s.trees && Parent(q) in fs && fs[Parent(q)].Directory?
      ensures KeptAs(p, s, q, fs[q], Stored(log))
    {
      assert PathOk(p, fs, s, Directories(fs), Directories(fs), log, q);
      if q != [] {
        assert Parent(q) in Directories(fs);
      }
    }
  }

  lemma {:induction false} PackedMetadata(p: Primitives, fs: Fs, s: Snapshot, log: seq<Blob>, omitted: set<Path>,
                                          root: Hash, a: Archive, offered: set<Blob>, unsaved: set<Hash>)
    requires Packed(p, fs, s, log, omitted, root, a, offered, unsaved)
    ensures forall q :: q in s.trees ==> q in fs && MetadataKept(fs[q], s.trees[q].metadata)
  {
    hide KeptAs, MetadataKept, LogOk, StoredTree, RootHash, TreeHashes, HashSet;
    forall q | q in s.trees
      ensures q in fs && MetadataKept(fs[q], s.trees[q].metadata)
    {
      KeptMetadata(p, s, q, fs[q], Stored(log));
    }
  }

  /** At most so many calls to add_blob are made for this tree. */
  ghost function CallsForTree(fs: Fs, largest: nat): nat {
    |fs| * CallsForDirectory(fs, largest)
  }

  lemma {:induction false} DistinctAreFew(queue: seq<FsNode>, paths: set<Path>)
    requires DistinctPaths(queue) && PathsIn(queue) <= paths
    ensures |queue| <= |paths|
  {
    if queue != [] {
      TailPaths(queue);
      DistinctAreFew(queue[1..], paths - {queue[0].path});
    }
  }

  lemma {:induction false} QueueCost(fs: Fs, queue: seq<FsNode>, largest: nat)
    requires ProcessingOk(fs, queue) && PathsIn(queue) == Directories(fs)
    ensures |queue| * CallsForDirectory(fs, largest) <= CallsForTree(fs, largest)
  {
    hide CallsForDirectory;
    DistinctAreFew(queue, fs.Keys);
    var c := CallsForDirectory(fs, largest);
    assert |fs| * c == |queue| * c + (|fs| - |queue|) * c;
  }

  lemma {:induction false} ManagerFacts(packer: Manager)
    requires packer.Valid()
    ensures packer.disk.Valid() && Lawful(packer.disk.p)
  {
    hide ArchiveOk, IndexImage, QueueOk, BlobIndex.AgreesWith, Lawful;
  }

  lemma {:induction false} AcceptedFacts(packer: Manager, log: seq<Blob>)
    requires Accepted(packer, log)
    ensures forall b :: b in log ==> b in packer.disk.offered && b.hash in packer.Tracked()
  {
    hide Manager.Tracked;
  }

  lemma {:induction false} PackingIsPacked(p: Primitives, fs: Fs, s: Snapshot, log: seq<Blob>, omitted: set<Path>,
                                           root: Hash, a: Archive, offered: set<Blob>, unsaved: set<Hash>)
    requires WellFormed(fs) && LogOk(log)
    requires Packing(p, fs, s, Directories(fs), Directories(fs), log) && FilesAccounted(fs, s, Directories(fs), omitted)
    requires [] in s.trees && Encodable(s.trees[[]]) && root == RootHash(p, s.trees[[]])
    requires forall b :: b in log ==> b in offered && (b.hash in HashSet(Flat(a)) || b.hash in unsaved)
    ensures Packed(p, fs, s, log, omitted, root, a, offered, unsaved)
  {
    hide LogOk, RootHash, HashSet, PathOk, SnapshotOf, Encodable;
    PackedIsSnapshot(p, fs, s, log);
  }

  /** Opens a valid folder for packing. */
  method OpenFolder(disk: Disk, packfilesSize: nat, ids: seq<PackfileId>, nonces: seq<Nonce>,
                    ghost calls: nat) returns (packer: Manager)
    requires disk.Valid()
    requires NoDuplicates(ids) && forall id :: id in ids && id in disk.archive.packs ==> id in disk.packs
    ensures fresh(packer) && fresh(packer.index) && packer.disk == disk && packer.Valid()
    ensures packer.index.unsaved == {} && Lawful(disk.p)
    ensures Provided(disk, ids, nonces, calls) ==> packer.Spare() >= calls
    ensures packer.index.disk == disk && (packer.index.Trim() <==> BoundedFiles(disk.archive.index))
  {
    hide Manager.Tracked, Manager.Valid, Disk.Valid, HashSet, UniqueHashes, SpareOf, Flat, SortedByHash, Lawful;
    var opening := Manager.Open(disk, packfilesSize, ids, nonces);
    assert opening.Ok?;
    packer := opening.value;
    ManagerFacts(packer);
    if Provided(disk, ids, nonces, calls) {
      EnoughToSpare(ids, disk.packs.Keys, |nonces|, |disk.archive.index|, calls);
    }
  }

  /** Packs the queue of directories and writes everything out. */
  method PackQueue(packer: Manager, fs: Fs, rootName: Name, queue: seq<FsNode>, ghost largest: nat)
      returns (r: Result<Hash, PackfileError>, failed: nat,
               ghost s: Snapshot, ghost log: seq<Blob>, ghost omitted: set<Path>, ghost unsaved: set<Hash>)
    requires packer.Valid() && Lawful(packer.disk.p) && WellFormed(fs) && |rootName| <= NAME_MAX_BYTES
    requires ProcessingOk(fs, queue) && PathsIn(queue) == Directories(fs)
    requires forall n :: n in queue ==> n.children == [] && n.childNames == []
    requires packer.index.unsaved == {}
    modifies packer, packer.index, packer.disk, set n | n in queue
    ensures packer.Valid()
    ensures old(packer.disk.history) <= packer.disk.history && old(packer.disk.offered) <= packer.disk.offered
    ensures Hashed(packer.disk.p, old(packer.disk.offered)) ==> Hashed(packer.disk.p, packer.disk.offered)
    ensures old(packer.disk.Reliable() && packer.index.Trim()) ==> packer.index.Trim()
    ensures old(packer.disk.Complete()) ==> packer.disk.Complete()
    ensures r.Ok? ==>
              Packed(packer.disk.p, fs, s, log, omitted, r.value, packer.disk.archive, packer.disk.offered, unsaved)
    ensures r.Ok? && failed == 0 ==> omitted == {} && unsaved == {}
    ensures FilesUpTo(fs, largest) && old(packer.Spare()) >= |queue| * CallsForDirectory(fs, largest) + 1 ==>
              r.Ok? && failed == 0
  {
    hide WellFormed, ProcessingOk, Packing, SnapshotOf, FilesAccounted, LogOk, RootHash, Accepted, Packed, Encodable,
         Lawful, HashSet, Disk.Complete, Manager.Valid, Manager.Tracked, Manager.Spare, FilesUpTo, CallsForDirectory,
         Manager.KnownSet;
    unsaved := {};
    r, failed, s, log, omitted := PackFilesInDirectory(packer, fs, rootName, queue, largest);
    if r.Err? {
      var _, _ := packer.Flush();
      return;
    }
    AcceptedFacts(packer, log);
    var flushed, _ := packer.Flush();
    if flushed.Err? {
      return Err(flushed.error), failed, s, log, omitted, unsaved;
    }
    unsaved := packer.index.unsaved;
    PackingIsPacked(packer.disk.p, fs, s, log, omitted, r.value, packer.disk.archive, packer.disk.offered, unsaved);
  }

  /** Packs a directory tree into a folder. Files that cannot be added are counted and left out. With enough
      unused ids, nonces and index file numbers it succeeds and leaves nothing out. */
  method Pack(disk: Disk, fs: Fs, rootName: Name, packfilesSize: nat, ids: seq<PackfileId>, nonces: seq<Nonce>,
              ghost largest: nat)
      returns (r: Result<Hash, PackfileError>, failed: nat,
               ghost s: Snapshot, ghost log: seq<Blob>, ghost omitted: set<Path>, ghost unsaved: set<Hash>)
    requires disk.Valid() && WellFormed(fs) && |rootName| <= NAME_MAX_BYTES
    requires NoDuplicates(ids) && forall id :: id in ids && id in disk.archive.packs ==> id in disk.packs
    modifies disk
    ensures disk.Valid() && old(disk.history) <= disk.history && old(disk.offered) <= disk.offered
    ensures Hashed(disk.p, old(disk.offered)) ==> Hashed(disk.p, disk.offered)
    ensures old(disk.Reliable() && BoundedFiles(disk.archive.index)) ==> BoundedFiles(disk.archive.index)
    ensures old(disk.Complete()) ==> disk.Complete()
    ensures r.Ok? ==> Packed(disk.p, fs, s, log, omitted, r.value, disk.archive, disk.offered, unsaved)
    ensures r.Ok? && failed == 0 ==> omitted == {} && unsaved == {}
    ensures r.Ok? ==> forall q :: q in s.trees ==> q in fs && MetadataKept(fs[q], s.trees[q].metadata)
    ensures FilesUpTo(fs, largest) && old(Provided(disk, ids, nonces, CallsForTree(fs, largest) + 1)) ==>
              r.Ok? && failed == 0
  {
    hide WellFormed, ProcessingOk, Packed, Disk.Complete, Disk.Valid, Manager.Valid, FilesUpTo, CallsForDirectory,
         CallsForTree, Provided, Manager.Spare, Lawful;
    var packer := OpenFolder(disk, packfilesSize, ids, nonces, CallsForTree(fs, largest) + 1);
    var root := new FsNode(null, []);
    var queue := BrowseDirTree(fs, root);
    QueueCost(fs, queue, largest);
    r, failed, s, log, omitted, unsaved := PackQueue(packer, fs, rootName, queue, largest);
    if r.Ok? {
      PackedMetadata(disk.p, fs, s, log, omitted, r.value, disk.archive, disk.offered, unsaved);
    }
    ManagerFacts(packer);
  }

  // ----- Restoring -----

  lemma {:induction false} KindOfPlain(p: Primitives, blob: BlobEncrypted)
    ensures Plain(p, blob).Ok? ==> Plain(p, blob).value.kind == blob.kind && Plain(p, blob).value.hash == blob.hash
  {
  }

  /** In an opened folder with all its packfiles, an indexed blob reads back with its own data, and with the
      kind of the blob first entered under its hash. */
  lemma {:induction false} ReadsFirstKind(disk: Disk, items: seq<Entry>, get: Getter, b: Blob)
    requires disk.Valid() && disk.Complete()
    requires multiset(items) == multiset(Flat(disk.archive))
    requires forall h :: get(h) == Get(disk.p, disk.packs, items, h)
    requires b.hash in HashSet(Flat(disk.archive))
    requires forall a :: a in disk.offered && a.hash == b.hash ==> a.data == b.data
    ensures Reads(get, b) && b.hash in disk.archive.first
    ensures ReadsTree(get, b.hash) <==> disk.archive.first[b.hash].kind == TreeBlob
    ensures get(b.hash) == Ok(Some(b)) <==> disk.archive.first[b.hash].kind == b.kind
  {
    hide Disk.Valid, Disk.Complete, HashSet, Get, Plain;
    ReopenedReadsBack(disk, items, b.hash);
    KindOfPlain(disk.p, disk.archive.first[b.hash]);
  }

  /** An added blob reads back as itself if and only if its first insertion had its kind. */
  lemma {:induction false} ReadsBackAsItself(disk: Disk, items: seq<Entry>, b: Blob)
    requires disk.Valid() && disk.Complete()
    requires multiset(items) == multiset(Flat(disk.archive))
    requires b.hash in HashSet(Flat(disk.archive))
    requires forall a :: a in disk.offered && a.hash == b.hash ==> a.data == b.data
    ensures b.hash in disk.archive.first
    ensures Get(disk.p, disk.packs, items, b.hash) == Ok(Some(b)) <==> disk.archive.first[b.hash].kind == b.kind
  {
    hide Disk.Valid, Disk.Complete, HashSet, Get, Plain;
    var p, packs := disk.p, disk.packs;
    var get: Getter := (h: Hash) => Get(p, packs, items, h);
    ReadsFirstKind(disk, items, get, b);
  }

  lemma {:induction false} LogReadsBack(disk: Disk, items: seq<Entry>, get: Getter, log: seq<Blob>)
    requires disk.Valid() && disk.Complete() && NoCollision(log, disk.offered)
    requires multiset(items) == multiset(Flat(disk.archive))
    requires forall h :: get(h) == Get(disk.p, disk.packs, items, h)
    requires forall b :: b in log ==> b.hash in HashSet(Flat(disk.archive))
    ensures forall b :: b in log ==>
              Reads(get, b) && b.hash in disk.archive.first &&
              (ReadsTree(get, b.hash) <==> disk.archive.first[b.hash].kind == TreeBlob)
  {
    hide Disk.Valid, Disk.Complete, HashSet, Get, Reads, ReadsTree;
    forall b | b in log
      ensures Reads(get, b) && b.hash in disk.archive.first &&
              (ReadsTree(get, b.hash) <==> disk.archive.first[b.hash].kind == TreeBlob)
    {
      ReadsFirstKind(disk, items, get, b);
    }
  }

  /** The snapshot's trees have kept their kind just when each came before any chunk with its bytes. */
  lemma {:induction false} KindsAreFirsts(p: Primitives, fs: Fs, s: Snapshot, log: seq<Blob>, get: Getter,
                                          first: map<Hash, BlobEncrypted>)
    requires SnapshotOf(p, fs, s, Stored(log))
    requires forall b :: b in log ==> b.hash in first && (ReadsTree(get, b.hash) <==> first[b.hash].kind == TreeBlob)
    ensures KindsKept(get, p, s) <==> TreesFirst(p, s, first)
  {
    hide DirOk, FileOk, ReadsTree, Chain, Encodable;
    forall q | q in s.trees
      ensures TreeKept(get, p, s.trees[q]) <==> (Encodable(s.trees[q]) ==> ChainFirst(Chain(p, s.trees[q]), first))
    {
      assert StoredTree(p, s.trees[q], Stored(log));
      forall i | 0 <= i < |Chain(p, s.trees[q])|
        ensures Chain(p, s.trees[q])[i] in log
      {
        assert Chain(p, s.trees[q])[i] in Stored(log);
      }
    }
    hide TreeKept, ChainFirst;
  }

  /** Hashes of the trees of a log, in its order. */
  ghost function TreeOrder(log: seq<Blob>): (order: seq<Hash>)
    ensures forall h :: h in order <==> h in TreeHashes(log)
  {
    if log == [] then []
    else
      var n := |log| - 1;
      assert log == log[..n] + [log[n]];
      TreeOrder(log[..n]) + (if log[n].kind == TreeBlob then [log[n].hash] else [])
  }

  /** What is read under a logged tree's hash leads where its own bytes do, or nowhere. */
  lemma {:induction false} LogLinks(get: Getter, log: seq<Blob>, b: Blob)
    requires Reads(get, b) && forall c :: c in log ==> Reads(get, c)
    requires b.kind == TreeBlob && NextLogged(b, log)
    ensures Links(get, b.hash) <= BlobLinks(b) && SameKindNext(get, b.hash)
  {
    hide DecodeTree, TreeLinks;
    var t := FetchTree(get, b.hash);
    if t.Ok? && t.value.nextSibling.Some? {
      var next := t.value.nextSibling.value;
      assert PieceLogged(log, next, t.value.kind);
      var c :| c in log && c.kind == TreeBlob && c.hash == next && DecodeTree(c.data).Some? &&
        DecodeTree(c.data).value.kind == t.value.kind;
      assert Reads(get, c);
    }
  }

  lemma {:induction false} LogFront(log: seq<Blob>)
    requires LogOk(log) && log != []
    ensures var n := |log| - 1;
            LogOk(log[..n]) &&
            (log[n].kind == TreeBlob ==> BlobLinks(log[n]) <= TreeHashes(log[..n]) && NextLogged(log[n], log[..n]))
  {
    hide BlobLinks, NextLogged, TreeHashes;
    var front := log[..|log| - 1];
    forall i | 0 <= i < |front|
      ensures front[..i] == log[..i] && front[i] == log[i]
    {
    }
  }

  lemma {:induction false} LogIsAcyclic(get: Getter, log: seq<Blob>)
    requires LogOk(log)
    requires forall b :: b in log ==> Reads(get, b)
    ensures Acyclic(get, TreeOrder(log))
  {
    if log != [] {
      var n := |log| - 1;
      var b, front := log[n], log[..n];
      LogFront(log);
      hide LogOk, BlobLinks, NextLogged, Reads, Links, SameKindNext, Acyclic;
      LogIsAcyclic(get, front);
      if b.kind == TreeBlob {
        LogLinks(get, front, b);
        AcyclicSnoc(get, TreeOrder(front), b.hash);
      } else {
        assert TreeOrder(front) + [] == TreeOrder(front);
      }
    }
  }

  /** Restores the snapshot from a folder holding everything that was written. The result is a faithful copy
      of every directory and every file that was not left out, names, nesting, contents and recorded
      modification times, and nothing else, if and only if no tree of the snapshot has the bytes of a file
      chunk that was added before it; else the restore stops at that tree. */
  method Restore(disk: Disk, packfilesSize: nat, rootHash: Hash,
                 ghost fs: Fs, ghost s: Snapshot, ghost log: seq<Blob>, ghost omitted: set<Path>)
      returns (r: Result<map<Path, Restored>, UnpackError>)
    requires disk.Valid() && disk.Complete() && WellFormed(fs)
    requires Packed(disk.p, fs, s, log, omitted, rootHash, disk.archive, disk.offered, {}) &&
             NoCollision(log, disk.offered)
    ensures s.trees.Keys <= fs.Keys
    ensures r == if TreesFirst(disk.p, s, disk.archive.first) then Ok(Copy(fs, s.trees.Keys)) else Err(NotATree)
    ensures r.Ok? ==> forall q :: q in r.value ==> q in s.trees && q in fs && Faithful(fs[q], r.value[q])
    ensures omitted == {} && TreesFirst(disk.p, s, disk.archive.first) ==>
              r == Ok(Copy(fs, set q | q in fs && !fs[q].Other?))
  {
    hide Copy, Faithful, WellFormed, SnapshotOf, LogOk, RootHash, Disk.Complete, Disk.Valid, Manager.Valid, Acyclic,
         HashSet, Get, UniqueHashes, NoCollision, Encodable, TreesFirst, KindsKept, Reads, ReadsTree, TreeHashes,
         SpareOf;
    var opening := Manager.Open(disk, packfilesSize, [], []);
    var packer := opening.value;
    ghost var get := ReaderOf(packer);
    LogReadsBack(disk, packer.index.items, get, log);
    LogIsAcyclic(get, log);
    KindsAreFirsts(disk.p, fs, s, log, get, disk.archive.first);
    GoodIsPacked(get, disk.p, fs, s, log, rootHash);
    r := Unpack(packer, rootHash, TreeOrder(log), fs, s, Stored(log));
    KeptPaths(disk.p, fs, s, Stored(log), omitted);
    CopyIsFaithful(fs, s.trees.Keys);
  }

  lemma {:induction false} GoodIsPacked(get: Getter, p: Primitives, fs: Fs, s: Snapshot, log: seq<Blob>, root: Hash)
    requires SnapshotOf(p, fs, s, Stored(log)) && (forall b :: b in log ==> Reads(get, b))
    requires Encodable(s.trees[[]]) && root == RootHash(p, s.trees[[]])
    ensures Good(get, p, fs, s, Stored(log), root)
  {
    hide Reads, DirOk, FileOk, StoredTree, Encodable, RootHash;
  }

  /** If no two offered blobs share a hash, of whatever kind, the condition is met. */
  lemma {:induction false} NoClashIsEnough(disk: Disk, items: seq<Entry>, fs: Fs, s: Snapshot, log: seq<Blob>)
    requires disk.Valid() && disk.Complete() && multiset(items) == multiset(Flat(disk.archive))
    requires SnapshotOf(disk.p, fs, s, Stored(log))
    requires forall b :: b in log ==> b in disk.offered && b.hash in HashSet(Flat(disk.archive))
    requires forall a, b :: a in disk.offered && b in disk.offered && a.hash == b.hash ==> a == b
    ensures NoCollision(log, disk.offered) && TreesFirst(disk.p, s, disk.archive.first)
  {
    hide Disk.Valid, Disk.Complete, HashSet, Get, Plain, DirOk, FileOk, Encodable;
    forall q, i | q in s.trees && Encodable(s.trees[q]) && 0 <= i < |Chain(disk.p, s.trees[q])|
      ensures Chain(disk.p, s.trees[q])[i].hash in disk.archive.first
      ensures disk.archive.first[Chain(disk.p, s.trees[q])[i].hash].kind == TreeBlob
    {
      var b := Chain(disk.p, s.trees[q])[i];
      assert StoredTree(disk.p, s.trees[q], Stored(log));
      assert b in Stored(log);
      ReopenedReadsBack(disk, items, b.hash);
      KindOfPlain(disk.p, disk.archive.first[b.hash]);
      ChainPieces(disk.p, s.trees[q], i);
    }
  }

  /** A snapshot keeps directories and files only, all of them but for the omitted files. */
  lemma {:induction false} KeptPaths(p: Primitives, fs: Fs, s: Snapshot, stored: set<Blob>, omitted: set<Path>)
    requires SnapshotOf(p, fs, s, stored)
    requires forall q :: q in fs && fs[q].Directory? ==> q in s.trees
    requires forall q :: q in fs && fs[q].File? ==> q in s.trees || q in omitted
    ensures s.trees.Keys <= (set q | q in fs && !fs[q].Other?)
    ensures omitted == {} ==> s.trees.Keys == set q | q in fs && !fs[q].Other?
  {
    hide DirOk, FileOk, StoredTree;
  }
}
