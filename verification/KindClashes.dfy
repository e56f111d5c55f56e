/** A blob's hash does not cover its kind: which of a tree and an equal file chunk comes first decides whether
    the tree can be read back. */
module KindClashes {
  import opened Wrappers
  import opened Primitives
  import opened PackfileFormat
  import opened Archives
  import opened Disks
  import opened Packfiles
  import opened Storing
  import opened Trees
  import opened Fetching
  import opened DirUnpacker

  /** Adds two blobs with the bytes of a tree, flushes, reopens, and fetches the tree. */
  method AddBothAndFetch(disk: Disk, first: Blob, second: Blob, ids: seq<PackfileId>, nonces: seq<Nonce>)
      returns (r: Result<Tree, UnpackError>)
    requires disk.Valid() && disk.Complete() && Provided(disk, ids, nonces, 3)
    requires first.hash == second.hash && first.data == second.data && |first.data| <= BLOB_MAX
    requires first.hash !in HashSet(Flat(disk.archive))
    modifies disk
    ensures r == if first.kind != TreeBlob then Err(NotATree)
                 else if DecodeTree(first.data).None? then Err(BadTree) else Ok(DecodeTree(first.data).value)
  {
    hide Disk.Valid, Disk.Complete, HashSet, Flat, Manager.Valid, Manager.Tracked, Manager.KnownSet, DecodeTree, Plain,
         Get, SortedByHash, UniqueHashes, FirstsRecorded, FirstsKept, LogHashes, SpareOf;
    var opening := Manager.Open(disk, 0, ids, nonces);
    var manager := opening.value;
    ghost var before := manager.Tracked();
    EnoughToSpare(ids, disk.packs.Keys, |nonces|, |disk.archive.index|, 3);
    var stored := StoreAll(manager, [first, second]);
    FirstIsRecorded(disk.p, first, second, before, disk.archive.first);
    manager.UnsavedFacts();
    var reopening := Manager.Open(disk, 0, [], []);
    ReopenedReadsBack(disk, reopening.value.index.items, first.hash);
    r := FetchTreeBlob(reopening.value, first.hash);
  }

  lemma {:induction false} FirstIsRecorded(p: Primitives, a: Blob, b: Blob, before: set<Hash>,
                                           first: map<Hash, BlobEncrypted>)
    requires a.hash !in before
    ensures a.hash in LogHashes([a, b])
    ensures FirstsRecorded(p, [a, b], before, first) ==> a.hash in first && Plain(p, first[a.hash]) == Ok(a)
  {
    hide Plain;
    assert FirstIn([a, b], 0);
    assert [a, b][0] in [a, b];
  }

  /** The failing input, for every tree of one piece and every folder: a file whose only chunk has the bytes of
      the tree is added first, and then the tree. The tree cannot be fetched. */
  method ChunkBeforeTree(disk: Disk, t: Tree, ids: seq<PackfileId>,
                         nonces: seq<Nonce>) returns (r: Result<Tree, UnpackError>)
    requires disk.Valid() && disk.Complete() && Provided(disk, ids, nonces, 3)
    requires Encodable(t) && |t.children| <= TREE_BLOB_MAX_CHILDREN &&
             TreeToBlob(disk.p, t).hash !in HashSet(Flat(disk.archive))
    modifies disk
    ensures r == Err(NotATree)
  {
    hide Disk.Valid, Disk.Complete, HashSet, EncodeTree, DecodeTree, Provided;
    var tree := TreeToBlob(disk.p, t);
    PieceFitsBlob(t);
    r := AddBothAndFetch(disk, Blob(tree.hash, FileChunk, tree.data), tree, ids, nonces);
  }

  /** The other way round nothing is lost: the tree is fetched, and a chunk is read without regard to kinds. */
  method TreeBeforeChunk(disk: Disk, t: Tree, ids: seq<PackfileId>,
                         nonces: seq<Nonce>) returns (r: Result<Tree, UnpackError>)
    requires disk.Valid() && disk.Complete() && Provided(disk, ids, nonces, 3)
    requires Encodable(t) && |t.children| <= TREE_BLOB_MAX_CHILDREN &&
             TreeToBlob(disk.p, t).hash !in HashSet(Flat(disk.archive))
    modifies disk
    ensures r == Ok(t)
  {
    hide Disk.Valid, Disk.Complete, HashSet, EncodeTree, DecodeTree, Provided;
    var tree := TreeToBlob(disk.p, t);
    PieceFitsBlob(t);
    TreeRoundTrip(t);
    r := AddBothAndFetch(disk, tree, Blob(tree.hash, FileChunk, tree.data), ids, nonces);
  }
}
