/** The local backup folder. Its two writing methods each leave it in a valid state, so `history`, which
    grows with every write, lists every state that a process stopped at any point can leave behind. */
module Disks {
  import opened ByteStrings
  import opened Primitives
  import opened PackfileFormat
  import opened Archives
  import opened FileNames

  /** Whether each of the coming writes fails; once used up, writes succeed. */
  type Faults = f: seq<bool> | |f| < U32_LIMIT

  function Rest<T>(s: seq<T>): seq<T> {
    if s == [] then [] else s[1..]
  }

  ghost predicate IndexImage(p: Primitives, index: seq<seq<Entry>>, files: map<u32, Bytes>) {
    IndexOk(index) &&
    (forall n: u32 :: n in files <==> 1 <= n <= |index|) &&
    forall n: u32 :: 1 <= n <= |index| ==> n in files && files[n] == IndexFile(p, n, index[n - 1])
  }

  lemma {:induction false} IndexImageAdd(p: Primitives, index: seq<seq<Entry>>, files: map<u32, Bytes>, number: u32,
                                         entries: seq<Entry>)
    requires IndexImage(p, index, files)
    requires number == |index| + 1 && |entries| < U64_LIMIT
    ensures IndexImage(p, index + [entries], files[number := IndexFile(p, number, entries)])
  {
    hide IndexFile;
  }

  ghost predicate PackImage(p: Primitives, blobs: seq<BlobEncrypted>, id: PackfileId, file: Bytes) {
    |blobs| < U64_LIMIT && DataSize(blobs) < U64_LIMIT && file == Serialized(p, id, blobs)
  }

  /** The packfiles ever written are those of the archive; some may have been deleted since. */
  ghost predicate PacksImage(p: Primitives, batches: map<PackfileId, seq<BlobEncrypted>>,
                             written: map<PackfileId, Bytes>)
  {
    written.Keys == batches.Keys && forall id :: id in written ==> PackImage(p, batches[id], id, written[id])
  }

  /** Every state that the folder was ever in is valid; the last is the present one. */
  ghost predicate HistoryOk(p: Primitives, history: seq<Archive>, archive: Archive, offered: set<Blob>) {
    history != [] && history[|history| - 1] == archive && forall a :: a in history ==> ArchiveOk(p, a, offered)
  }

  lemma {:induction false} HistoryAdd(p: Primitives, history: seq<Archive>, before: Archive, archive: Archive,
                                      offered: set<Blob>)
    requires HistoryOk(p, history, before, offered) && ArchiveOk(p, archive, offered)
    ensures HistoryOk(p, history + [archive], archive, offered)
  {
    hide ArchiveOk;
  }

  lemma {:induction false} HistoryMonotone(p: Primitives, history: seq<Archive>, archive: Archive, offered: set<Blob>,
                                           more: set<Blob>)
    requires HistoryOk(p, history, archive, offered) && offered <= more
    ensures HistoryOk(p, history, archive, more) && ArchiveOk(p, archive, more)
  {
    hide ArchiveOk;
    forall a | a in history
      ensures ArchiveOk(p, a, more)
    {
      ArchiveOkMonotone(p, a, offered, more);
    }
  }

  lemma {:induction false} PacksImageAdd(p: Primitives, batches: map<PackfileId, seq<BlobEncrypted>>,
                                         written: map<PackfileId, Bytes>, id: PackfileId, blobs: seq<BlobEncrypted>,
                                         file: Bytes)
    requires PacksImage(p, batches, written) && PackImage(p, blobs, id, file)
    ensures PacksImage(p, batches[id := blobs], written[id := file])
    ensures id in written <==> id in batches
  {
    hide PackImage;
  }

  lemma {:induction false} NothingWritten(p: Primitives, written: map<PackfileId, Bytes>, indexFiles: map<u32, Bytes>)
    requires written == map[] && indexFiles == map[]
    ensures ArchiveOk(p, Archive(map[], [], map[]), {}) && IndexImage(p, [], indexFiles) &&
            PacksImage(p, map[], written)
    ensures WrittenInOrder([], FilesIn(written.Keys, indexFiles.Keys))
  {
  }

  /** Packfiles and index files under their common type. */
  ghost function FilesOf(packs: map<PackfileId, Bytes>, indexFiles: map<u32, Bytes>): map<FileInfo, Bytes> {
    map f: FileInfo | f in FilesIn(packs.Keys,
                                   indexFiles.Keys) :: if f.Packfile? then packs[f.id] else indexFiles[f.number]
  }

  ghost function FilesIn(packs: set<PackfileId>, numbers: set<u32>): (files: set<FileInfo>)
    ensures forall f :: f in files <==> if f.Packfile? then f.id in packs else f.number in numbers
  {
    (set id | id in packs :: Packfile(id)) + (set n | n in numbers :: Index(n))
  }

  /** These files were written in this order, none twice, and index files by ascending number. */
  ghost predicate WrittenInOrder(order: seq<FileInfo>, files: set<FileInfo>) {
    NoDuplicates(order) && (forall f :: f in order <==> f in files) &&
    forall i, j :: 0 <= i < j < |order| && order[i].Index? && order[j].Index? ==> order[i].number < order[j].number
  }

  lemma {:induction false} WrittenNext(order: seq<FileInfo>, packs: set<PackfileId>, numbers: set<u32>, f: FileInfo)
    requires WrittenInOrder(order, FilesIn(packs, numbers)) && f !in FilesIn(packs, numbers)
    requires f.Index? ==> forall n :: n in numbers ==> n < f.number
    ensures f.Packfile? ==> WrittenInOrder(order + [f], FilesIn(packs + {f.id}, numbers))
    ensures f.Index? ==> WrittenInOrder(order + [f], FilesIn(packs, numbers + {f.number}))
  {
  }

  class Disk {
    const p: Primitives
    var packs: map<PackfileId, Bytes>
    var indexFiles: map<u32, Bytes>

    /** What the environment does: whether coming writes fail, and which packfiles the sender deletes each
        time it gets its turn while packing goes on. */
    var faults: Faults
    var deletions: seq<seq<PackfileId>>

    /** Everything ever written; the sender may have deleted packfiles from `packs` since. */
    ghost var archive: Archive
    ghost var written: map<PackfileId, Bytes>
    ghost var order: seq<FileInfo>
    ghost var history: seq<Archive>
    /** Every blob handed to add_blob in any session. */
    ghost var offered: set<Blob>

    ghost predicate Valid()
      reads this
    {
      Lawful(p) &&
      ArchiveOk(p, archive, offered) &&
      IndexImage(p, archive.index, indexFiles) &&
      PacksImage(p, archive.packs, written) &&
      (forall id :: id in packs ==> id in written && packs[id] == written[id]) &&
      WrittenInOrder(order, FilesIn(written.Keys, indexFiles.Keys)) &&
      HistoryOk(p, history, archive, offered)
    }

    /** Every packfile ever written is at hand, as in a folder that a restore has filled, and none is going
        to be deleted. */
    ghost predicate Complete()
      reads this`archive, this`packs, this`deletions
    {
      deletions == [] && forall id :: id in archive.packs ==> id in packs
    }

    predicate WriteFails()
      reads this`faults
    {
      faults != [] && faults[0]
    }

    /** No coming write fails. */
    predicate Reliable()
      reads this`faults
    {
      true !in faults
    }

    /** Every file ever written. */
    ghost function Files(): map<FileInfo, Bytes>
      reads this
    {
      FilesOf(written, indexFiles)
    }

    constructor Empty(p: Primitives)
      requires Lawful(p)
      ensures Valid() && Complete()
      ensures this.p == p && archive == Archive(map[], [], map[]) && offered == {} && Reliable()
    {
      hide ArchiveOk, IndexImage, PacksImage, Lawful, WrittenInOrder, FilesIn;
      NothingWritten(p, map[], map[]);
      this.p := p;
      packs, indexFiles := map[], map[];
      faults, deletions, written, order := [], [], map[], [];
      archive, offered := Archive(map[], [], map[]), {};
      history := [Archive(map[], [], map[])];
    }

    /** The folder a restore fills: any archive that the invariant admits, with all its files. */
    constructor Restored(p: Primitives, packs: map<PackfileId, Bytes>, indexFiles: map<u32, Bytes>,
                         ghost archive: Archive, ghost offered: set<Blob>, ghost order: seq<FileInfo>)
      requires Lawful(p)
      requires ArchiveOk(p, archive, offered)
      requires IndexImage(p, archive.index, indexFiles)
      requires PacksImage(p, archive.packs, packs) && WrittenInOrder(order, FilesIn(packs.Keys, indexFiles.Keys))
      ensures Valid() && Complete()
      ensures this.p == p && this.archive == archive && this.offered == offered
      ensures this.packs == packs && this.indexFiles == indexFiles && Reliable()
    {
      hide ArchiveOk, IndexImage, Lawful, WrittenInOrder, FilesIn, PackImage;
      this.p := p;
      this.packs, this.indexFiles := packs, indexFiles;
      this.faults, this.deletions, this.written, this.order := [], [], packs, order;
      this.archive, this.offered := archive, offered;
      this.history := [archive];
    }

    ghost method Offer(blob: Blob)
      requires Valid()
      modifies this`offered
      ensures Valid()
      ensures offered == old(offered) + {blob}
    {
      hide ArchiveOk, IndexImage, PacksImage, Lawful, WrittenInOrder, FilesIn, HistoryOk;
      HistoryMonotone(p, history, archive, offered, offered + {blob});
      offered := offered + {blob};
    }

    /** Records the blob first entered under a hash that is in no index file. */
    ghost method Enter(blob: BlobEncrypted)
      requires Valid() && blob.hash !in HashSet(Flat(archive))
      modifies this`archive, this`history
      ensures Valid()
      ensures archive == old(archive).(first := old(archive).first[blob.hash := blob])
      ensures history == old(history) + [archive]
    {
      hide ArchiveOk, IndexImage, PacksImage, Lawful, HashSet, WrittenInOrder, FilesIn, HistoryOk;
      EnterKeepsOk(p, archive, offered, blob);
      HistoryAdd(p, history, archive, archive.(first := archive.first[blob.hash := blob]), offered);
      archive := archive.(first := archive.first[blob.hash := blob]);
      history := history + [archive];
    }

    /** Creates a packfile; fails, with no change, if one with this id is there already or if it cannot be
        written. */
    method CreatePackfile(id: PackfileId, file: Bytes, ghost blobs: seq<BlobEncrypted>) returns (created: bool)
      requires Valid()
      requires PackOk(p, blobs, offered)
      requires PackImage(p, blobs, id, file)
      requires id in archive.packs ==> id in packs
      modifies this`packs, this`faults, this`archive, this`written, this`order, this`history
      ensures Valid() && faults == Rest(old(faults))
      ensures created == (id !in old(packs) && !old(WriteFails()))
      ensures created ==> packs == old(packs)[id := file] && id !in old(archive).packs
      ensures created ==> archive == old(archive).(packs := old(archive).packs[id := blobs])
      ensures created ==> written == old(written)[id := file] && order == old(order) + [Packfile(id)]
      ensures created ==> history == old(history) + [archive]
      ensures !created ==> packs == old(packs) && archive == old(archive) && history == old(history)
      ensures !created ==> written == old(written) && order == old(order)
    {
      hide ArchiveOk, IndexImage, PackOk, PackImage, PacksImage, Lawful, WrittenInOrder, FilesIn, HistoryOk;
      PacksImageAdd(p, archive.packs, written, id, blobs, file);
      created := id !in packs && !WriteFails();
      faults := Rest(faults);
      if created {
        AddPackKeepsOk(p, archive, offered, id, blobs);
        HistoryAdd(p, history, archive, archive.(packs := archive.packs[id := blobs]), offered);
        WrittenNext(order, written.Keys, indexFiles.Keys, Packfile(id));
        packs := packs[id := file];
        archive := archive.(packs := archive.packs[id := blobs]);
        written, order := written[id := file], order + [Packfile(id)];
        history := history + [archive];
        assert written.Keys == old(written).Keys + {id};
      }
    }

    /** Writes the next index file; fails, with no change, if it cannot be written. */
    method WriteIndexFile(number: u32, file: Bytes, ghost entries: seq<Entry>) returns (ok: bool)
      requires Valid()
      requires number == |archive.index| + 1
      requires |entries| < U64_LIMIT && EntriesOk(archive.packs, archive.first, Flat(archive) + entries)
      requires file == IndexFile(p, number, entries)
      modifies this`indexFiles, this`faults, this`archive, this`order, this`history
      ensures Valid() && faults == Rest(old(faults)) && ok == !old(WriteFails())
      ensures ok ==> indexFiles == old(indexFiles)[number := file] && order == old(order) + [Index(number)]
      ensures ok ==> archive == old(archive).(index := old(archive).index + [entries])
      ensures ok ==> history == old(history) + [archive]
      ensures !ok ==>
                indexFiles == old(indexFiles) && order == old(order) && archive == old(archive) &&
                history == old(history)
    {
      hide ArchiveOk, PacksImage, EntriesOk, Lawful, IndexFile, WrittenInOrder, FilesIn, HistoryOk;
      ok := !WriteFails();
      faults := Rest(faults);
      if ok {
        WrittenNext(order, written.Keys, indexFiles.Keys, Index(number));
        IndexImageAdd(p, archive.index, indexFiles, number, entries);
        AddIndexFileKeepsOk(p, archive, offered, entries);
        HistoryAdd(p, history, archive, archive.(index := archive.index + [entries]), offered);
        indexFiles, order := indexFiles[number := file], order + [Index(number)];
        archive := archive.(index := archive.index + [entries]);
        history := history + [archive];
        assert indexFiles.Keys == old(indexFiles).Keys + {number};
      }
    }

    /** What the sender deletes in its next turn. */
    method NextDeletions() returns (turn: seq<PackfileId>)
      requires Valid()
      modifies this`deletions
      ensures Valid() && deletions == Rest(old(deletions)) && (old(deletions) == [] ==> turn == [])
    {
      hide ArchiveOk, IndexImage, PacksImage, Lawful, WrittenInOrder, FilesIn, HistoryOk;
      turn := if deletions == [] then [] else deletions[0];
      deletions := Rest(deletions);
    }

    /** The sender deletes a packfile that a peer has acknowledged. */
    method RemovePackfile(id: PackfileId)
      requires Valid()
      modifies this`packs
      ensures Valid()
      ensures packs == map i | i in old(packs) && i != id :: old(packs)[i]
    {
      hide ArchiveOk, IndexImage, PacksImage, Lawful, WrittenInOrder, FilesIn, HistoryOk;
      packs := map i | i in packs && i != id :: packs[i];
    }
  }
}
