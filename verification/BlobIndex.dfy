/** The index from blob hash to packfile: pending entries, numbered files, and lookup after loading. */
module BlobIndices {
  import opened Wrappers
  import opened ByteStrings
  import opened Primitives
  import opened PackfileFormat
  import opened Archives
  import opened Disks

  const U32_MAX: u32 := 0xFFFF_FFFF

  // ----- Sorting by hash -----

  function InsertByHash(e: Entry, sorted: seq<Entry>): (r: seq<Entry>)
    ensures multiset(r) == multiset(sorted) + multiset{e}
  {
    if sorted == [] || LexLess(e.0, sorted[0].0) then
      [e] + sorted
    else
      assert sorted == [sorted[0]] + sorted[1..];
      [sorted[0]] + InsertByHash(e, sorted[1..])
  }

  lemma {:induction false} InsertKeepsSorted(e: Entry, sorted: seq<Entry>)
    requires SortedByHash(sorted)
    ensures SortedByHash(InsertByHash(e, sorted))
  {
    if sorted == [] {
    } else if LexLess(e.0, sorted[0].0) {
      forall j | 0 <= j < |sorted|
        ensures !LexLess(sorted[j].0, e.0)
      {
        LexTotal(sorted[j].0, e.0);
        if LexLess(sorted[j].0, e.0) {
          LexTransitive(sorted[j].0, e.0, sorted[0].0);
        }
      }
    } else {
      var rest := InsertByHash(e, sorted[1..]);
      InsertKeepsSorted(e, sorted[1..]);
      forall j | 0 <= j < |rest|
        ensures !LexLess(rest[j].0, sorted[0].0)
      {
        assert rest[j] in multiset(rest);
        assert rest[j] == e || rest[j] in sorted[1..];
      }
    }
  }

  function SortByHash(s: seq<Entry>): (r: seq<Entry>)
    ensures multiset(r) == multiset(s)
  {
    if s == [] then []
    else
      assert s == [s[0]] + s[1..];
      InsertByHash(s[0], SortByHash(s[1..]))
  }

  lemma {:induction false} SortSorts(s: seq<Entry>)
    ensures SortedByHash(SortByHash(s))
  {
    if s != [] {
      SortSorts(s[1..]);
      InsertKeepsSorted(s[0], SortByHash(s[1..]));
    }
  }

  // ----- Entries gathered file by file, in any order -----

  ghost function Bag(index: seq<seq<Entry>>, numbers: set<u32>): multiset<Entry>
    requires forall n :: n in numbers ==> 1 <= n <= |index|
  {
    if numbers == {} then multiset{}
    else
      var n :| n in numbers;
      multiset(index[n - 1]) + Bag(index, numbers - {n})
  }

  lemma {:induction false} NothingLeft(index: seq<seq<Entry>>)
    ensures Bag(index, {}) == multiset{}
  {
  }

  lemma {:induction false} BagPick(index: seq<seq<Entry>>, numbers: set<u32>, n: u32)
    requires forall m :: m in numbers ==> 1 <= m <= |index|
    requires n in numbers
    ensures Bag(index, numbers) == multiset(index[n - 1]) + Bag(index, numbers - {n})
    decreases numbers
  {
    var m :| m in numbers && Bag(index, numbers) == multiset(index[m - 1]) + Bag(index, numbers - {m});
    if m != n {
      BagPick(index, numbers - {m}, n);
      BagPick(index, numbers - {n}, m);
      assert numbers - {m} - {n} == numbers - {n} - {m};
    }
  }

  lemma {:induction false} WithoutLast(numbers: set<u32>, k: nat)
    requires 1 <= k < U32_LIMIT && forall n: u32 :: n in numbers <==> 1 <= n <= k
    ensures forall n: u32 :: n in numbers - {k} <==> 1 <= n <= k - 1
  {
  }

  lemma {:induction false} BagOfAll(index: seq<seq<Entry>>, numbers: set<u32>, k: nat)
    requires k <= |index| && forall n: u32 :: n in numbers <==> 1 <= n <= k
    requires k < U32_LIMIT
    ensures Bag(index, numbers) == multiset(Concat(index[..k]))
  {
    if k == 0 {
      assert numbers == {};
    } else {
      hide Bag, Concat;
      var n: u32 := k;
      WithoutLast(numbers, k);
      BagPick(index, numbers, n);
      BagOfAll(index, numbers - {n}, k - 1);
      assert index[..k] == index[..k - 1] + [index[k - 1]];
      ConcatSnoc(index[..k - 1], index[k - 1]);
    }
  }

  lemma {:induction false} SameHashes(s: seq<Entry>, t: seq<Entry>)
    requires multiset(s) == multiset(t)
    ensures HashSet(s) == HashSet(t)
    ensures forall e :: e in s <==> e in t
  {
    assert forall e :: e in s <==> e in multiset(s);
    assert forall e :: e in t <==> e in multiset(t);
  }

  lemma {:induction false} ImageFacts(p: Primitives, index: seq<seq<Entry>>, files: map<u32, Bytes>)
    requires Lawful(p) && IndexImage(p, index, files)
    ensures |index| < U32_LIMIT
    ensures forall n: u32 :: n in files <==> 1 <= n <= |index|
    ensures forall n :: n in files ==> OpenIndexFile(p, n, files[n]) == Ok(index[n - 1])
  {
    hide IndexFile, OpenIndexFile, Lawful;
    forall n | n in files
      ensures OpenIndexFile(p, n, files[n]) == Ok(index[n - 1])
    {
      IndexFileOpens(p, n, index[n - 1]);
    }
  }

  /** Reads and concatenates the index files in whatever order the folder lists them; also gives the
      highest file number. Fails on the first file that does not open. */
  method ReadIndexFiles(p: Primitives, files: map<u32, Bytes>, ghost index: seq<seq<Entry>>)
      returns (r: Result<(seq<Entry>, u32), PackfileError>)
    ensures Lawful(p) && IndexImage(p, index, files) ==>
              r.Ok? && r.value.1 == |index| && multiset(r.value.0) == multiset(Concat(index))
    ensures r.Err? ==> exists n :: n in files && OpenIndexFile(p, n, files[n]) == Err(r.error)
  {
    hide Lawful, IndexImage, OpenIndexFile, Bag;
    var maxNum: u32 := 0;
    var items: seq<Entry> := [];
    var rest := files.Keys;
    ghost var image := Lawful(p) && IndexImage(p, index, files);
    if image {
      ImageFacts(p, index, files);
      BagOfAll(index, files.Keys, |index|);
      assert index[..|index|] == index;
    }
    while rest != {}
      invariant rest <= files.Keys
      invariant maxNum == 0 || maxNum in files
      invariant forall n :: n in files ==> n in rest || n <= maxNum
      invariant image ==> multiset(items) + Bag(index, rest) == Bag(index, files.Keys)
    {
      var n :| n in rest;
      var entries := OpenIndexFile(p, n, files[n]);
      if image {
        BagPick(index, rest, n);
      }
      if entries.Err? {
        return Err(entries.error);
      }
      maxNum := if maxNum < n then n else maxNum;
      items := items + entries.value;
      rest := rest - {n};
    }
    if image {
      NothingLeft(index);
      if index != [] {
        var last: u32 := |index|;
        assert last in files;
      }
    }
    return Ok((items, maxNum));
  }

  function EntriesFor(handle: seq<Hash>, id: PackfileId): seq<Entry> {
    seq(|handle|, i requires 0 <= i < |handle| => (handle[i], id))
  }

  lemma {:induction false} EntriesSnoc(front: seq<Hash>, hash: Hash, id: PackfileId)
    ensures EntriesFor(front + [hash], id) == EntriesFor(front, id) + [(hash, id)]
    ensures (set h | h in front + [hash]) == (set h | h in front) + {hash}
  {
  }

  lemma {:induction false} EntriesOfNone(handle: seq<Hash>, id: PackfileId)
    ensures EntriesFor(handle[..0], id) == [] && (set h | h in handle[..0]) == {}
  {
  }

  class BlobIndex {
    const disk: Disk
    var items: seq<Entry>
    var itemsBuf: seq<Entry>
    var blobsQueued: set<Hash>
    var lastFileNum: u32
    var dirty: bool

    /** Hashes marked as queued whose packfile has not been saved (yet, or because saving failed). */
    ghost var unsaved: set<Hash>

    /** All entries pushed so far: the index files in number order, then the pending buffer. */
    ghost function Log(): seq<Entry>
      reads this, disk
    {
      Flat(disk.archive) + itemsBuf
    }

    predicate Known(hash: Hash)
      reads this
    {
      hash in blobsQueued || exists e :: e in items && e.0 == hash
    }

    /** What ties the index to an archive: loaded entries are indexed, no hash is indexed twice, every
        entry names a packfile that lists it, and the known hashes are the indexed and unsaved ones. */
    ghost predicate AgreesWith(a: Archive)
      reads this
    {
      var log := Flat(a) + itemsBuf;
      lastFileNum == |a.index| &&
      SortedByHash(items) &&
      UniqueHashes(multiset(items)) &&
      (forall e :: e in items ==> e in Flat(a)) &&
      EntriesOk(a.packs, a.first, log) &&
      HashSet(items) + blobsQueued == HashSet(log) + unsaved &&
      unsaved !! HashSet(log)
    }

    /** Everything that holds between operations, except for the bound on the buffer. */
    ghost predicate Consistent()
      reads this, disk
    {
      disk.Valid() && AgreesWith(disk.archive)
    }

    /** Every entry beyond a full file stands for a failed write, unless no further file number is left. */
    ghost predicate Valid()
      reads this, disk
    {
      Consistent() && (lastFileNum == U32_MAX || |itemsBuf| + |disk.faults| <= MAX_FILE_ENTRIES + U32_LIMIT)
    }

    /** The pending entries would fill a file; writing it has failed. */
    predicate Full()
      reads this`itemsBuf
    {
      |itemsBuf| >= MAX_FILE_ENTRIES
    }

    /** No index file is over its limit, and none will be by writing what is pending. */
    ghost predicate Bounded()
      reads this`itemsBuf, disk`archive
    {
      BoundedFiles(disk.archive.index) && |itemsBuf| <= MAX_FILE_ENTRIES
    }

    /** No index file is over its limit or can get there, as long as no write fails. */
    ghost predicate Trim()
      reads this`itemsBuf, this`lastFileNum, disk`archive
    {
      BoundedFiles(disk.archive.index) && (Full() ==> lastFileNum == U32_MAX)
    }

    /** What callers need of Valid. */
    lemma {:induction false} ValidFacts(hash: Hash)
      requires Valid()
      ensures disk.Valid() && Lawful(disk.p) && SortedByHash(items)
      ensures unsaved <= blobsQueued + HashSet(items)
      ensures Known(hash) <==> hash in blobsQueued + HashSet(items)
    {
      hide ArchiveOk, IndexImage, UniqueHashes, EntriesOk, Log;
    }

    /** With nothing pending, the known hashes are those in the index files and the unsaved ones. */
    lemma {:induction false} FlushedFacts()
      requires Valid() && itemsBuf == []
      ensures blobsQueued + HashSet(items) == HashSet(Flat(disk.archive)) + unsaved
      ensures unsaved !! HashSet(Flat(disk.archive))
    {
      hide Disk.Valid, UniqueHashes, EntriesOk, HashSet;
      assert Flat(disk.archive) + itemsBuf == Flat(disk.archive);
    }

    lemma {:induction false} NumberFacts()
      requires Valid()
      ensures lastFileNum == |disk.archive.index| && unsaved <= blobsQueued + HashSet(items)
    {
      hide Disk.Valid, UniqueHashes, EntriesOk, HashSet;
    }

    /** A new packfile leaves the index in agreement with the archive. */
    lemma {:induction false} AgreesWithNewPack(a: Archive, id: PackfileId, blobs: seq<BlobEncrypted>)
      requires AgreesWith(a)
      requires id !in a.packs
      ensures AgreesWith(a.(packs := a.packs[id := blobs]))
    {
      hide EntriesOk, UniqueHashes;
      EntriesOkGrows(a.packs, a.first, Flat(a) + itemsBuf, id, blobs);
    }

    /** So does entering a blob under a hash that is not known. */
    lemma {:induction false} AgreesWithEntered(a: Archive, blob: BlobEncrypted)
      requires AgreesWith(a)
      requires blob.hash !in blobsQueued + HashSet(items)
      ensures AgreesWith(a.(first := a.first[blob.hash := blob]))
      ensures blob.hash !in HashSet(Flat(a))
    {
      hide EntriesOk, UniqueHashes;
      EntriesOkEnter(a.packs, a.first, Flat(a) + itemsBuf, blob);
      assert forall e :: e in Flat(a) ==> e in Flat(a) + itemsBuf;
    }

    constructor (disk: Disk, items: seq<Entry>, lastFileNum: u32)
      ensures this.disk == disk && this.items == items && this.lastFileNum == lastFileNum
      ensures itemsBuf == [] && blobsQueued == {} && unsaved == {} && !dirty
    {
      this.disk, this.items, this.lastFileNum := disk, items, lastFileNum;
      itemsBuf, blobsQueued, unsaved, dirty := [], {}, {}, false;
    }

    /** Loads the index of a folder. */
    static method Load(disk: Disk) returns (r: Result<BlobIndex, PackfileError>)
      ensures r.Ok? ==> fresh(r.value) && r.value.disk == disk && SortedByHash(r.value.items)
      ensures r.Ok? ==> r.value.itemsBuf == [] && r.value.blobsQueued == {} && r.value.unsaved == {}
      ensures disk.Valid() ==> r.Ok? && r.value.Valid()
      ensures disk.Valid() ==> multiset(r.value.items) == multiset(Flat(disk.archive))
    {
      hide ArchiveOk, IndexImage, UniqueHashes;
      var entries := ReadIndexFiles(disk.p, disk.indexFiles, disk.archive.index);
      if entries.Err? {
        return Err(entries.error);
      }
      var (items, maxNum) := entries.value;
      var sorted := SortByHash(items);
      SortSorts(items);
      var index := new BlobIndex(disk, sorted, maxNum);
      if disk.Valid() {
        ArchiveParts(disk);
        assert index.Log() == Flat(disk.archive);
        SameHashes(sorted, Flat(disk.archive));
      }
      return Ok(index);
    }

    static lemma {:induction false} ArchiveParts(disk: Disk)
      requires disk.Valid()
      ensures EntriesOk(disk.archive.packs, disk.archive.first, Flat(disk.archive))
    {
    }

    /** Binary search; agrees with a linear search when no hash is mapped twice. */
    method FindPackfile(hash: Hash) returns (r: Option<PackfileId>)
      requires SortedByHash(items)
      ensures r.Some? ==> (hash, r.value) in items
      ensures r.None? ==> forall e :: e in items ==> e.0 != hash
      ensures UniqueHashes(multiset(items)) ==> r == Locate(items, hash)
    {
      var lo, hi := 0, |items|;
      while lo < hi
        invariant 0 <= lo <= hi <= |items|
        invariant forall i :: 0 <= i < lo ==> LexLess(items[i].0, hash)
        invariant forall i :: hi <= i < |items| ==> LexLess(hash, items[i].0)
      {
        var mid := lo + (hi - lo) / 2;
        LexTotal(items[mid].0, hash);
        if items[mid].0 == hash {
          r := Some(items[mid].1);
          ghost var found := Locate(items, hash);
          if UniqueHashes(multiset(items)) {
            assert items[mid] in multiset(items);
            assert found.Some? ==> (hash, found.value) in multiset(items);
          }
          return;
        } else if LexLess(items[mid].0, hash) {
          forall i | 0 <= i < mid
            ensures LexLess(items[i].0, hash)
          {
            LexTransitive(items[i].0, items[mid].0, hash);
          }
          lo := mid + 1;
        } else {
          forall i | mid < i < |items|
            ensures LexLess(hash, items[i].0)
          {
            LexTotal(hash, items[i].0);
            if !LexLess(hash, items[i].0) {
              LexTransitive(items[i].0, hash, items[mid].0);
            }
          }
          hi := mid;
        }
      }
      forall e | e in items
        ensures e.0 != hash
      {
        var i :| 0 <= i < |items| && items[i] == e;
        LexTotal(e.0, hash);
      }
      return None;
    }

    method IsBlobDuplicate(hash: Hash) returns (duplicate: bool)
      requires SortedByHash(items)
      ensures duplicate == Known(hash)
    {
      if hash in blobsQueued {
        return true;
      }
      var found := FindPackfile(hash);
      return found.Some?;
    }

    /** Lists the hash for the packfile under construction; refuses one that is queued already. */
    method AddToPackfile(handle: seq<Hash>, hash: Hash) returns (handle': seq<Hash>, r: Result<(), PackfileError>)
      requires Valid()
      modifies this`blobsQueued, this`unsaved
      ensures handle' == handle + [hash]
      ensures r == if hash in old(blobsQueued) then Err(DuplicateBlob) else Ok(())
      ensures blobsQueued == old(blobsQueued) + {hash}
      ensures unsaved == if old(Known(hash)) then old(unsaved) else old(unsaved) + {hash}
      ensures Valid()
    {
      hide ArchiveOk, IndexImage, EntriesOk, UniqueHashes, Lawful;
      handle' := handle + [hash];
      if hash in blobsQueued {
        return handle', Err(DuplicateBlob);
      }
      if !Known(hash) {
        assert hash !in HashSet(items);
        unsaved := unsaved + {hash};
      } else {
        assert hash in HashSet(items);
      }
      blobsQueued := blobsQueued + {hash};
      return handle', Ok(());
    }

    /** Writes the pending entries, even if there are none, to the next numbered file. They stay pending if it
        cannot be written. */
    method Flush() returns (r: Result<(), PackfileError>)
      requires Consistent() &&
               (lastFileNum == U32_MAX || |itemsBuf| + |disk.faults| <= MAX_FILE_ENTRIES + U32_LIMIT + 1)
      modifies this`itemsBuf, this`lastFileNum, this`dirty
      modifies disk`indexFiles, disk`faults, disk`archive, disk`order, disk`history
      ensures Consistent()
      ensures |itemsBuf| <= MAX_FILE_ENTRIES || |old(itemsBuf)| + |old(disk.faults)| <= MAX_FILE_ENTRIES + U32_LIMIT ==>
                Valid()
      ensures r == if old(lastFileNum) == U32_MAX then Err(IndexCounterOverflow)
                   else if old(disk.WriteFails()) then Err(IoError) else Ok(())
      ensures disk.faults == if old(lastFileNum) == U32_MAX then old(disk.faults) else Rest(old(disk.faults))
      ensures Log() == old(Log())
      ensures disk.archive.packs == old(disk.archive.packs) && disk.archive.first == old(disk.archive.first)
      ensures lastFileNum == if r.Ok? then old(lastFileNum) + 1 else old(lastFileNum)
      ensures r.Ok? ==> itemsBuf == [] && !dirty && disk.archive.index == old(disk.archive.index) + [old(itemsBuf)]
      ensures r.Err? ==> itemsBuf == old(itemsBuf) && disk.archive == old(disk.archive)
      ensures Bounded() <==> old(Bounded())
      ensures Full() <==> r.Err? && old(Full())
      ensures old(Trim()) ==> Trim()
      ensures old(disk.history) <= disk.history
    {
      hide Disk.Valid, EntriesOk, UniqueHashes, Lawful, IndexFile;
      if lastFileNum == U32_MAX {
        return Err(IndexCounterOverflow);
      }
      var newFileNum: u32 := lastFileNum + 1;
      var file := IndexFile(disk.p, newFileNum, itemsBuf);
      ConcatSnoc(disk.archive.index, itemsBuf);
      BoundedAdd(disk.archive.index, itemsBuf);
      var written := disk.WriteIndexFile(newFileNum, file, itemsBuf);
      if !written {
        return Err(IoError);
      }
      lastFileNum, itemsBuf, dirty := newFileNum, [], false;
      assert Log() == Flat(disk.archive);
      return Ok(());
    }

    /** Appends one entry, flushing when the buffer holds a full file. The entry is in the log even if that
        fails. */
    method Push(hash: Hash, id: PackfileId) returns (r: Result<(), PackfileError>)
      requires Valid()
      requires hash in unsaved && EntryOk(disk.archive.packs, disk.archive.first, (hash, id))
      modifies this`itemsBuf, this`lastFileNum, this`dirty, this`unsaved
      modifies disk`indexFiles, disk`faults, disk`archive, disk`order, disk`history
      ensures Valid()
      ensures Log() == old(Log()) + [(hash, id)]
      ensures unsaved == old(unsaved) - {hash}
      ensures r == if |old(itemsBuf)| + 1 < MAX_FILE_ENTRIES then Ok(())
                   else if old(lastFileNum) == U32_MAX then Err(IndexCounterOverflow)
                   else if old(disk.WriteFails()) then Err(IoError) else Ok(())
      ensures r.Err? || |old(itemsBuf)| + 1 < MAX_FILE_ENTRIES ==>
                itemsBuf == old(itemsBuf) + [(hash, id)] && lastFileNum == old(lastFileNum)
      ensures r.Ok? && |old(itemsBuf)| + 1 >= MAX_FILE_ENTRIES ==> itemsBuf == [] && lastFileNum == old(lastFileNum) + 1
      ensures disk.faults == if |old(itemsBuf)| + 1 < MAX_FILE_ENTRIES ||
              old(lastFileNum) == U32_MAX then old(disk.faults)
                             else Rest(old(disk.faults))
      ensures disk.archive.index == if r.Ok? && |old(itemsBuf)| + 1 >= MAX_FILE_ENTRIES
                                    then old(disk.archive.index) + [old(itemsBuf) + [(hash,
                                      id)]] else old(disk.archive.index)
      ensures Bounded() <==> old(Bounded()) && !old(Full())
      ensures Full() <==> r.Err?
      ensures old(Trim()) && !old(disk.WriteFails()) ==> Trim()
      ensures disk.archive.packs == old(disk.archive.packs) && disk.archive.first == old(disk.archive.first)
      ensures old(disk.history) <= disk.history
    {
      hide ArchiveOk, IndexImage, EntriesOk, UniqueHashes, Lawful, EntryOk;
      ghost var log := Log();
      BoundedAdd(disk.archive.index, itemsBuf + [(hash, id)]);
      assert log + [(hash, id)] == Flat(disk.archive) + (itemsBuf + [(hash, id)]);
      EntriesOkAdd(disk.archive.packs, disk.archive.first, log, (hash, id));
      itemsBuf := itemsBuf + [(hash, id)];
      dirty := true;
      unsaved := unsaved - {hash};
      assert Log() == log + [(hash, id)];
      assert HashSet(Log()) == HashSet(log) + {hash};
      if |itemsBuf| >= MAX_FILE_ENTRIES {
        r := Flush();
        return r;
      }
      return Ok(());
    }

    /** Gives every hash of the finished packfile its entry, stopping when an index file cannot be written:
        the hash entered last stays pending, and those after it get no entry. */
    method FinalizePackfile(handle: seq<Hash>,
                            id: PackfileId) returns (r: Result<(), PackfileError>, ghost entered: nat)
      requires Valid()
      requires NoDuplicates(handle)
      requires forall h :: h in handle ==> h in unsaved && EntryOk(disk.archive.packs, disk.archive.first, (h, id))
      modifies this`itemsBuf, this`lastFileNum, this`dirty, this`unsaved
      modifies disk`indexFiles, disk`faults, disk`archive, disk`order, disk`history
      ensures Valid()
      ensures disk.archive.packs == old(disk.archive.packs) && disk.archive.first == old(disk.archive.first)
      ensures old(disk.history) <= disk.history
      ensures entered <= |handle| && (r.Ok? ==> entered == |handle|)
      ensures Log() == old(Log()) + EntriesFor(handle[..entered], id)
      ensures unsaved == old(unsaved) - (set h | h in handle[..entered])
      ensures r.Err? ==> entered > 0 && |itemsBuf| >= MAX_FILE_ENTRIES && r.error in {IoError, IndexCounterOverflow}
      ensures r == Err(IndexCounterOverflow) ==> old(lastFileNum) + |handle| > U32_MAX
      ensures r == Err(IoError) ==> true in old(disk.faults)
      ensures old(disk.WriteFails()) && old(lastFileNum) < U32_MAX ==>
                entered == Min(|handle|, Max(1, MAX_FILE_ENTRIES - |old(itemsBuf)|)) &&
                (r.Ok? <==> |handle| == 0 || |handle| < MAX_FILE_ENTRIES - |old(itemsBuf)|)
      ensures old(lastFileNum) <= lastFileNum <= old(lastFileNum) + |handle|
      ensures Bounded() <==> old(Bounded()) && !(old(Full()) && handle != [])
      ensures Full() <==> if handle == [] then old(Full()) else r.Err?
      ensures old(disk.Reliable()) ==> disk.Reliable()
      ensures old(disk.Reliable() && Trim()) ==> Trim()
    {
      hide BlobIndex.AgreesWith, BlobIndex.Log, Disk.Valid, EntryOk, EntriesFor, BlobIndex.Bounded, BlobIndex.Trim;
      EntriesOfNone(handle, id);
      entered := 0;
      var i := 0;
      ghost var fails := disk.WriteFails() && lastFileNum < U32_MAX;
      while i < |handle|
        invariant 0 <= i == entered <= |handle|
        invariant Valid()
        invariant disk.archive.packs == old(disk.archive.packs) && disk.archive.first == old(disk.archive.first)
        invariant old(disk.history) <= disk.history
        invariant Log() == old(Log()) + EntriesFor(handle[..entered], id)
        invariant unsaved == old(unsaved) - (set h | h in handle[..entered])
        invariant old(lastFileNum) <= lastFileNum <= old(lastFileNum) + entered
        invariant true in disk.faults ==> true in old(disk.faults)
        invariant Bounded() <==> old(Bounded()) && !(old(Full()) && i > 0)
        invariant Full() <==> i == 0 && old(Full())
        invariant old(disk.Reliable() && Trim()) ==> Trim()
        invariant fails ==>
                    disk.faults == old(disk.faults) && lastFileNum == old(lastFileNum) &&
                    |itemsBuf| == |old(itemsBuf)| + entered
        invariant fails && entered > 0 ==> |itemsBuf| < MAX_FILE_ENTRIES
      {
        EntriesSnoc(handle[..i], handle[i], id);
        assert handle[..i + 1] == handle[..i] + [handle[i]];
        r := Push(handle[i], id);
        i, entered := i + 1, i + 1;
        if r.Err? {
          return r, entered;
        }
      }
      return Ok(()), entered;
    }
  }

  /** The failing input, for every index with nothing pending and any 50,001 entries that are due: the first
      write of an index file fails, at the 50,000th push, and the next push succeeds. Its file has 50,001
      entries. */
  method OverfullFile(index: BlobIndex, entries: seq<Entry>) returns (full: Result<(), PackfileError>, last: Result<(),
      PackfileError>)
    requires index.Valid() && index.itemsBuf == [] && index.lastFileNum < U32_MAX && index.disk.faults == [true]
    requires |entries| == MAX_FILE_ENTRIES + 1
    requires forall i, j :: 0 <= i < j < |entries| ==> entries[i].0 != entries[j].0
    requires forall e :: e in entries ==>
               e.0 in index.unsaved && EntryOk(index.disk.archive.packs, index.disk.archive.first, e)
    modifies index, index.disk
    ensures full == Err(IoError) && last == Ok(())
    ensures index.Valid() && index.disk.archive.index == old(index.disk.archive.index) + [entries]
    ensures |entries| == 50_001 && !BoundedFiles(index.disk.archive.index)
  {
    hide BlobIndex.AgreesWith, Disk.Valid, EntryOk;
    for i := 0 to MAX_FILE_ENTRIES - 1
      invariant index.Valid() && index.itemsBuf == entries[..i] && index.disk.archive == old(index.disk.archive)
      invariant index.lastFileNum == old(index.lastFileNum) && index.disk.faults == [true]
      invariant forall j :: i <= j < |entries| ==> entries[j].0 in index.unsaved
    {
      assert entries[i] in entries;
      var pushed := index.Push(entries[i].0, entries[i].1);
    }
    assert entries[MAX_FILE_ENTRIES - 1] in entries && entries[MAX_FILE_ENTRIES] in entries;
    full := index.Push(entries[MAX_FILE_ENTRIES - 1].0, entries[MAX_FILE_ENTRIES - 1].1);
    last := index.Push(entries[MAX_FILE_ENTRIES].0, entries[MAX_FILE_ENTRIES].1);
    assert entries == entries[..MAX_FILE_ENTRIES - 1] + [entries[MAX_FILE_ENTRIES - 1]] + [entries[MAX_FILE_ENTRIES]];
    BoundedAdd(old(index.disk.archive.index), entries);
  }
}
