/** The packfile manager: queues blobs, batches them into packfiles, and reads them back. */
module Packfiles {
  import opened Wrappers
  import opened ByteStrings
  import opened Primitives
  import opened PackfileFormat
  import opened Archives
  import opened Disks
  import opened BlobIndices

  /** Local packfiles beyond this many bytes make add_blob ask its caller to wait: 100 MiB. */
  const MAX_PACKFILE_LOCAL_BUFFER_SIZE: nat := 104_857_600

  function HashesOf(blobs: seq<BlobEncrypted>): seq<Hash> {
    seq(|blobs|, i requires 0 <= i < |blobs| => blobs[i].hash)
  }

  ghost function HashesIn(blobs: seq<BlobEncrypted>): set<Hash> {
    set b | b in blobs :: b.hash
  }

  /** The queue without the blobs that are known already or repeat an earlier one. */
  ghost function Fresh(queue: seq<BlobEncrypted>, known: set<Hash>): seq<BlobEncrypted> {
    if queue == [] then []
    else if queue[0].hash in known then Fresh(queue[1..], known)
    else [queue[0]] + Fresh(queue[1..], known + {queue[0].hash})
  }

  /** The first blob of every hash that is not known is kept. */
  lemma {:induction false} FirstsAreKept(queue: seq<BlobEncrypted>, known: set<Hash>, i: nat)
    requires IsFirst(queue, known, i)
    ensures queue[i] in Fresh(queue, known)
  {
    if i > 0 {
      assert queue[0].hash != queue[i].hash;
      forall j | 0 <= j < i - 1
        ensures queue[1..][j].hash != queue[i].hash
      {
        assert queue[1..][j] == queue[j + 1];
      }
      FirstsAreKept(queue[1..], known + {queue[0].hash}, i - 1);
      FirstsAreKeptWhenKnown(queue, known, i);
    }
  }

  lemma {:induction false} FirstsAreKeptWhenKnown(queue: seq<BlobEncrypted>, known: set<Hash>, i: nat)
    requires 0 < i < |queue| && queue[i] in Fresh(queue[1..], known + {queue[0].hash})
    ensures queue[i] in Fresh(queue, known)
  {
    if queue[0].hash in known {
      assert known + {queue[0].hash} == known;
    }
  }

  /** If the queue has a hash that is not known, something of it is kept. */
  lemma {:induction false} UnknownIsFresh(queue: seq<BlobEncrypted>, known: set<Hash>)
    ensures HashesIn(queue) + known != known ==> Fresh(queue, known) != []
  {
    if HashesIn(queue) + known != known {
      var h :| h in HashesIn(queue) && h !in known;
      var b :| b in queue && b.hash == h;
      if queue[0].hash in known {
        assert queue == [queue[0]] + queue[1..];
        assert b in queue[1..] && h in HashesIn(queue[1..]);
        UnknownIsFresh(queue[1..], known);
      }
    }
  }

  /** What is kept was queued and not known. */
  lemma {:induction false} FreshHashes(queue: seq<BlobEncrypted>, known: set<Hash>)
    ensures HashesIn(Fresh(queue, known)) <= HashesIn(queue) - known
  {
    forall h | h in HashesIn(Fresh(queue, known))
      ensures h in HashesIn(queue) && h !in known
    {
      var b :| b in Fresh(queue, known) && b.hash == h;
      var k :| 0 <= k < |Fresh(queue, known)| && Fresh(queue, known)[k] == b;
      KeptAreFirsts(queue, known, k);
      var i :| IsFirst(queue, known, i) && queue[i] == b;
      assert queue[i] in queue;
    }
  }

  lemma {:induction false} SomeHash(blobs: seq<BlobEncrypted>)
    ensures blobs != [] ==> HashesIn(blobs) != {}
  {
    if blobs != [] {
      assert blobs[0] in blobs && blobs[0].hash in HashesIn(blobs);
    }
  }

  /** What is lost is of the batch held. */
  lemma {:induction false} HashesOfRest(a: seq<BlobEncrypted>, batch: seq<BlobEncrypted>, c: seq<BlobEncrypted>,
                                        failure: Failure)
    requires failure.NoFailure? || failure.batch == batch
    ensures HashesIn(Lost(failure)) <= HashesIn(a + (batch + c))
  {
    forall h | h in HashesIn(Lost(failure))
      ensures h in HashesIn(a + (batch + c))
    {
      var x :| x in Lost(failure) && x.hash == h;
      assert x in a + (batch + c);
    }
  }

  /** Something counted as not known is not known. */
  lemma {:induction false} WantedIsUnknown(queue: seq<BlobEncrypted>, known: set<Hash>)
    requires NotKnown(queue, known) != []
    ensures HashesIn(queue) + known != known
  {
    var n := |queue| - 1;
    if queue[n].hash in known {
      WantedIsUnknown(queue[..n], known);
      assert queue == queue[..n] + [queue[n]];
      assert HashesIn(queue[..n]) <= HashesIn(queue) by {
        forall h | h in HashesIn(queue[..n])
          ensures h in HashesIn(queue)
        {
          var x :| x in queue[..n] && x.hash == h;
          assert x in queue;
        }
      }
    } else {
      assert queue[n] in queue && queue[n].hash in HashesIn(queue);
    }
  }

  /** Nothing else is kept, and no hash twice: each kept blob is the first of its hash. */
  lemma {:induction false} KeptAreFirsts(queue: seq<BlobEncrypted>, known: set<Hash>, k: nat)
    requires k < |Fresh(queue, known)|
    ensures exists i :: IsFirst(queue, known, i) && queue[i] == Fresh(queue, known)[k]
  {
    var head, tail := queue[0], queue[1..];
    if head.hash !in known && k == 0 {
      assert IsFirst(queue, known, 0);
    } else {
      var known' := if head.hash in known then known else known + {head.hash};
      var k' := if head.hash in known then k else k - 1;
      KeptAreFirsts(tail, known', k');
      var i :| IsFirst(tail, known', i) && tail[i] == Fresh(tail, known')[k'];
      forall j | 0 <= j < i + 1
        ensures queue[j].hash != queue[i + 1].hash
      {
        assert j > 0 ==> tail[j - 1] == queue[j];
      }
      assert IsFirst(queue, known, i + 1);
    }
  }

  ghost predicate IsFirst(queue: seq<BlobEncrypted>, known: set<Hash>, i: int) {
    0 <= i < |queue| && queue[i].hash !in known && forall j :: 0 <= j < i ==> queue[j].hash != queue[i].hash
  }

  /** Every queued blob opens to a blob that was offered, and is small enough to be packed. */
  ghost predicate QueueOk(p: Primitives, queue: seq<BlobEncrypted>, offered: set<Blob>) {
    forall b :: b in queue ==> |b.data| <= SEALED_MAX && Plain(p, b).Ok? && Plain(p, b).value in offered
  }

  /** Of the queued blobs that are not known, the first under each hash is the one first entered. */
  ghost predicate FirstsQueued(queue: seq<BlobEncrypted>, known: set<Hash>, first: map<Hash, BlobEncrypted>) {
    forall i :: IsFirst(queue, known, i) ==> queue[i].hash in first && first[queue[i].hash] == queue[i]
  }

  ghost predicate AllFirst(batch: seq<BlobEncrypted>, first: map<Hash, BlobEncrypted>) {
    forall b :: b in batch ==> b.hash in first && first[b.hash] == b
  }

  lemma {:induction false} NoneFirst(first: map<Hash, BlobEncrypted>)
    ensures AllFirst([], first)
  {
  }

  lemma {:induction false} OneMoreFirst(batch: seq<BlobEncrypted>, first: map<Hash, BlobEncrypted>, blob: BlobEncrypted)
    requires AllFirst(batch, first) && blob.hash in first && first[blob.hash] == blob
    ensures AllFirst(batch + [blob], first)
  {
  }

  /** Taking the head of the queue: if it is not known, it is the blob first entered under its hash. */
  lemma {:induction false} FirstsTail(queue: seq<BlobEncrypted>, known: set<Hash>, first: map<Hash, BlobEncrypted>)
    requires FirstsQueued(queue, known, first) && queue != []
    ensures queue[0].hash in known ==> FirstsQueued(queue[1..], known, first)
    ensures queue[0].hash !in known ==>
              FirstsQueued(queue[1..], known + {queue[0].hash}, first) && queue[0].hash in first &&
              first[queue[0].hash] == queue[0]
  {
    var head, rest := queue[0], queue[1..];
    assert head.hash !in known ==> IsFirst(queue, known, 0);
    forall i | IsFirst(rest, known + {head.hash}, i)
      ensures rest[i].hash in first && first[rest[i].hash] == rest[i]
    {
      assert forall j :: 0 < j < i + 1 ==> queue[j] == rest[j - 1];
      assert IsFirst(queue, known, i + 1);
    }
    if head.hash in known {
      assert known + {head.hash} == known;
    }
  }

  /** Entering a blob: a hash that is neither queued nor known gets it as its first. */
  lemma {:induction false} FirstsEnter(queue: seq<BlobEncrypted>, known: set<Hash>, first: map<Hash, BlobEncrypted>,
                                       blob: BlobEncrypted)
    requires FirstsQueued(queue, known, first)
    ensures blob.hash in HashesIn(queue) + known ==> FirstsQueued(queue + [blob], known, first)
    ensures blob.hash !in HashesIn(queue) + known ==> FirstsQueued(queue + [blob], known, first[blob.hash := blob])
  {
    var longer := queue + [blob];
    forall i | IsFirst(longer, known, i) && i < |queue|
      ensures IsFirst(queue, known, i) && longer[i] == queue[i] && longer[i].hash in HashesIn(queue)
    {
      assert forall j :: 0 <= j < i ==> longer[j] == queue[j];
      assert queue[i] in queue;
    }
    if blob.hash in HashesIn(queue) {
      var b :| b in queue && b.hash == blob.hash;
      var j :| 0 <= j < |queue| && queue[j] == b;
      assert longer[j].hash == blob.hash;
    }
  }

  /** The queued blobs that are not known; repeats within the queue are kept. */
  ghost function NotKnown(queue: seq<BlobEncrypted>, known: set<Hash>): seq<BlobEncrypted> {
    if queue == [] then []
    else
      var n := |queue| - 1;
      NotKnown(queue[..n], known) + (if queue[n].hash in known then [] else [queue[n]])
  }

  function TotalSize(blobs: seq<BlobEncrypted>): nat {
    if blobs == [] then 0 else TotalSize(blobs[..|blobs| - 1]) + |blobs[|blobs| - 1].data|
  }

  lemma {:induction false} NotKnownNothing(known: set<Hash>)
    ensures NotKnown([], known) == [] && TotalSize([]) == 0
  {
  }

  lemma {:induction false} NotKnownStep(queue: seq<BlobEncrypted>, i: nat, known: set<Hash>)
    requires i < |queue|
    ensures var before, after := NotKnown(queue[..i], known), NotKnown(queue[..i + 1], known);
            if queue[i].hash in known then after == before
            else |after| == |before| + 1 && TotalSize(after) == TotalSize(before) + |queue[i].data|
  {
    assert queue[..i + 1][..i] == queue[..i];
    var before := NotKnown(queue[..i], known);
    assert (before + [queue[i]])[..|before|] == before;
  }

  lemma {:induction false} SealedUnder(p: Primitives, blob: Blob, nonce: Nonce)
    ensures EncryptBlob(p, blob, nonce).nonce == nonce
  {
  }

  // ----- Failed writes -----

  /** Errors of writing packfiles: no random id, a file that cannot be written, no index file number left. */
  predicate WriteFailure(e: PackfileError) {
    e == GetrandomError || e == IoError || e == IndexCounterOverflow
  }

  /** The caller may go on: the blob was queued or known, or everything queued was written out. */
  predicate GoesOn(r: Result<Option<nat>, PackfileError>) {
    r.Ok? || r.error == ExceededBufferLimit
  }

  /** What a call failed to write: the packfile of the batch it held; or an index file, when it had entered
      so many of the hashes of a batch whose packfile was written, or had nothing more to enter. */
  datatype Failure =
    | NoFailure
    | PackfileUnwritten(batch: seq<BlobEncrypted>)
    | IndexUnwritten(batch: seq<BlobEncrypted>, entered: nat)

  ghost predicate FailureOk(f: Failure) {
    match f
    case NoFailure => true
    case PackfileUnwritten(batch) => Batch(batch)
    case IndexUnwritten(batch, entered) => entered <= |batch| && (batch != [] ==> Batch(batch) && entered > 0)
  }

  /** The blobs that are neither queued nor indexed after this, and yet marked as queued. */
  ghost function Lost(f: Failure): seq<BlobEncrypted> {
    match f
    case NoFailure => []
    case PackfileUnwritten(batch) => batch
    case IndexUnwritten(batch, entered) => if entered <= |batch| then batch[entered..] else []
  }

  /** The batch that has got no packfile. */
  ghost function Unwritten(f: Failure): seq<BlobEncrypted> {
    if f.PackfileUnwritten? then f.batch else []
  }

  /** The error that such a failure is reported as. */
  ghost predicate Reports(f: Failure, e: PackfileError) {
    match f
    case NoFailure => !WriteFailure(e)
    case PackfileUnwritten(_) => e == GetrandomError || e == IoError
    case IndexUnwritten(_, _) => e == IoError || e == IndexCounterOverflow
  }

  lemma {:induction false} NothingFailed()
    ensures FailureOk(NoFailure) && Lost(NoFailure) == [] && Unwritten(NoFailure) == [] &&
            Reports(NoFailure, ExceededBufferLimit)
  {
  }

  // ----- The size of the local buffer -----

  /** The sizes of the packfiles with these ids. */
  ghost function SizesOf(written: map<PackfileId, Bytes>, ids: seq<PackfileId>): seq<nat> {
    seq(|ids|, k requires 0 <= k < |ids| => if ids[k] in written then |written[ids[k]]| else 0)
  }

  ghost function Total(sizes: seq<nat>): nat {
    if sizes == [] then 0 else Total(sizes[..|sizes| - 1]) + sizes[|sizes| - 1]
  }

  /** Before some packfile of these sizes was written, the buffer was above 100 MiB. */
  ghost predicate OverLimit(size: nat, sizes: seq<nat>) {
    exists k :: 0 <= k < |sizes| && size + Total(sizes[..k]) > 104_857_600
  }

  /** Exactly these packfiles were written, each once. */
  ghost predicate NewFiles(before: map<PackfileId, Bytes>, after: map<PackfileId, Bytes>, ids: seq<PackfileId>) {
    NoDuplicates(ids) && (forall id :: id in ids ==> id !in before && id in after) &&
    (forall id :: id in after ==> id in before || id in ids) &&
    forall id :: id in before ==> id in after && after[id] == before[id]
  }

  /** The packfiles that count as part of the buffer: one of which not all hashes were entered does not. */
  ghost function Counted(ids: seq<PackfileId>, f: Failure): seq<PackfileId> {
    if f.IndexUnwritten? && ids != [] then ids[..|ids| - 1] else ids
  }

  /** The buffer has grown by these packfiles, and `exceeded` says whether it was over its limit before one. */
  ghost predicate Sized(before: map<PackfileId, Bytes>, written: map<PackfileId, Bytes>, ids: seq<PackfileId>,
                        size0: nat, size: nat, exceeded: bool)
  {
    NewFiles(before, written, ids) && size == size0 + Total(SizesOf(written, ids)) &&
    (exceeded <==> OverLimit(size0, SizesOf(written, ids)))
  }

  lemma {:induction false} NothingSized(written: map<PackfileId, Bytes>, size: nat)
    ensures Sized(written, written, [], size, size, false) && Total(SizesOf(written, [])) == 0
  {
  }

  lemma {:induction false} TotalsSnoc(sizes: seq<nat>, next: nat, size: nat)
    ensures Total(sizes + [next]) == Total(sizes) + next
    ensures OverLimit(size, sizes + [next]) <==> OverLimit(size, sizes) || size + Total(sizes) > 104_857_600
  {
    var sizes' := sizes + [next];
    assert sizes'[..|sizes|] == sizes;
    assert forall k :: 0 <= k <= |sizes| ==> sizes'[..k] == sizes[..k];
    if OverLimit(size, sizes) {
      var k :| 0 <= k < |sizes| && size + Total(sizes[..k]) > 104_857_600;
      assert size + Total(sizes'[..k]) > 104_857_600;
    }
    if size + Total(sizes) > 104_857_600 {
      assert size + Total(sizes'[..|sizes|]) > 104_857_600;
    }
  }

  lemma {:induction false} SizesSnoc(written: map<PackfileId, Bytes>, ids: seq<PackfileId>, id: PackfileId, file: Bytes)
    requires id !in ids
    ensures SizesOf(written[id := file], ids + [id]) == SizesOf(written, ids) + [|file|]
    ensures SizesOf(written[id := file], ids) == SizesOf(written, ids)
  {
  }

  lemma {:induction false} NewFilesSnoc(before: map<PackfileId, Bytes>, written: map<PackfileId, Bytes>,
                                        ids: seq<PackfileId>, id: PackfileId, file: Bytes)
    requires NewFiles(before, written, ids) && id !in written
    ensures NewFiles(before, written[id := file], ids + [id]) && id !in ids
  {
  }

  /** One more packfile. */
  lemma {:induction false} SizedSnoc(before: map<PackfileId, Bytes>, written: map<PackfileId, Bytes>,
                                     ids: seq<PackfileId>, size0: nat, size: nat, exceeded: bool,
                                     id: PackfileId, file: Bytes)
    requires Sized(before, written, ids, size0, size, exceeded) && id !in written
    ensures Sized(before, written[id := file], ids + [id], size0, size + |file|,
                  exceeded || size > MAX_PACKFILE_LOCAL_BUFFER_SIZE)
    ensures NewFiles(before, written[id := file], ids + [id])
    ensures size == size0 + Total(SizesOf(written[id := file], ids))
  {
    hide NewFiles, SizesOf, Total, OverLimit;
    NewFilesSnoc(before, written, ids, id, file);
    SizesSnoc(written, ids, id, file);
    TotalsSnoc(SizesOf(written, ids), |file|, size0);
  }

  // ----- The steps of add_blob -----

  /** The sections of add_blob that hold a lock. Others may act between them. */
  datatype AddPhase = Checking | Queueing | Measuring | Writing

  datatype AddProgress = Going(phase: AddPhase) | Replied(reply: Result<Option<nat>, PackfileError>)

  // ----- When nothing fails -----

  /** How many more calls are sure to go through: -1, or what is left of unused ids, nonces and index file
      numbers when everything queued is written. */
  ghost function SpareOf(ids: seq<PackfileId>, packs: set<PackfileId>, queued: nat, nonces: nat, files: nat): (n: int)
    ensures n >= -1
    ensures n >= 0 ==>
              |ids| >= queued + n && nonces >= n && files + queued + n <= U32_MAX && forall id :: id in ids ==>
                id !in packs
  {
    var least := Min(|ids| - queued, Min(nonces, U32_MAX - files - queued));
    if least < 0 || exists id :: id in ids && id in packs then -1 else least
  }

  /** A folder with room for n more calls: unused ids, nonces and index file numbers, and no write fails. */
  ghost predicate Provided(disk: Disk, ids: seq<PackfileId>, nonces: seq<Nonce>, n: nat)
    reads disk
  {
    disk.Reliable() && NoDuplicates(ids) && |ids| >= n && |nonces| >= n && |disk.archive.index| + n <= U32_MAX &&
    forall id :: id in ids ==> id !in disk.packs && id !in disk.archive.packs
  }

  lemma {:induction false} EnoughToSpare(ids: seq<PackfileId>, packs: set<PackfileId>, nonces: nat, files: nat, n: nat)
    requires |ids| >= n && nonces >= n && files + n <= U32_MAX && forall id :: id in ids ==> id !in packs
    ensures SpareOf(ids, packs, 0, nonces, files) >= n
  {
  }

  lemma {:induction false} SpareAfterSave(ids: seq<PackfileId>, packs: set<PackfileId>, queued: nat, nonces: nat,
                                          files: nat, saved: nat, queued': nat, files': nat)
    requires ids != [] && NoDuplicates(ids) && saved >= 1 && queued' + saved <= queued && files' <= files + saved
    ensures SpareOf(ids[1..], packs + {ids[0]}, queued', nonces, files') >= SpareOf(ids, packs, queued, nonces, files)
  {
    assert forall id :: id in ids[1..] ==> id in ids && id != ids[0];
  }

  lemma {:induction false} SpareAfterSkip(ids: seq<PackfileId>, packs: set<PackfileId>, queued: nat, nonces: nat,
                                          files: nat, queued': nat)
    requires queued' <= queued
    ensures SpareOf(ids, packs, queued', nonces, files) >= SpareOf(ids, packs, queued, nonces, files)
  {
  }

  lemma {:induction false} SpareAfterCall(ids: seq<PackfileId>, packs: set<PackfileId>, queued: nat, nonces: nat,
                                          files: nat)
    ensures nonces >= 1 ==>
              SpareOf(ids, packs, queued + 1, nonces - 1, files) >= SpareOf(ids, packs, queued, nonces, files) - 1
    ensures SpareOf(ids, packs, queued, nonces, files + 1) >= SpareOf(ids, packs, queued, nonces, files) - 1
  {
  }

  lemma {:induction false} SpareAfterDeletion(ids: seq<PackfileId>, packs: set<PackfileId>, queued: nat, nonces: nat,
                                              files: nat, packs': set<PackfileId>)
    requires packs' <= packs
    ensures SpareOf(ids, packs', queued, nonces, files) >= SpareOf(ids, packs, queued, nonces, files)
  {
  }

  lemma {:induction false} NoneToSpare(ids: seq<PackfileId>, packs: set<PackfileId>, queued: nat, files: nat)
    ensures SpareOf(ids, packs, queued, 0, files) <= 0
  {
  }

  lemma {:induction false} BuiltHashes(p: Primitives, offered: set<Blob>, batch: seq<BlobEncrypted>,
                                       handle: seq<Hash>, header: seq<HeaderBlob>, data: Bytes)
    requires Built(p, offered, batch, handle, header, data)
    ensures (set h | h in handle) == HashesIn(batch) && |handle| == |batch|
  {
    forall h | h in handle
      ensures h in HashesIn(batch)
    {
      var i :| 0 <= i < |handle| && handle[i] == h;
      assert batch[i] in batch;
    }
    forall h | h in HashesIn(batch)
      ensures h in handle
    {
      var b :| b in batch && b.hash == h;
      var i :| 0 <= i < |batch| && batch[i] == b;
      assert handle[i] == h;
    }
  }

  /** What is left to enter of a batch when the first hashes of its handle have been. */
  lemma {:induction false} RestOfHandle(batch: seq<BlobEncrypted>, handle: seq<Hash>, entered: nat)
    requires handle == HashesOf(batch) && NoDuplicates(handle) && entered <= |handle|
    ensures (set h | h in handle) - (set h | h in handle[..entered]) == HashesIn(batch[entered..])
  {
    assert forall i :: 0 <= i < entered ==> handle[..entered][i] == handle[i];
    forall h | h in handle && h !in handle[..entered]
      ensures h in HashesIn(batch[entered..])
    {
      var i :| 0 <= i < |handle| && handle[i] == h;
      assert batch[entered..][i - entered] == batch[i];
      assert batch[i] in batch[entered..];
    }
    forall h | h in HashesIn(batch[entered..])
      ensures h in handle && h !in handle[..entered]
    {
      var b :| b in batch[entered..] && b.hash == h;
      var i :| 0 <= i < |batch[entered..]| && batch[entered..][i] == b;
      assert handle[entered + i] == h;
    }
  }

  lemma {:induction false} BuiltRest(p: Primitives, offered: set<Blob>, batch: seq<BlobEncrypted>,
                                     handle: seq<Hash>, header: seq<HeaderBlob>, data: Bytes, entered: nat)
    requires Built(p, offered, batch, handle, header, data) && entered <= |handle|
    ensures entered <= |batch|
    ensures (set h | h in handle) - (set h | h in handle[..entered]) == HashesIn(batch[entered..])
  {
    hide HashesIn, HeaderOf, DataOf, DataSize, PackOk;
    RestOfHandle(batch, handle, entered);
  }

  /** write_packfiles went through, whether or not it then asked its caller to wait. */
  predicate Written(r: Result<nat, PackfileError>) {
    r.Ok? || r.error == ExceededBufferLimit
  }

  /** The packfiles `ids` hold these batches and nothing else was added. */
  ghost predicate AddedPacks(before: map<PackfileId, seq<BlobEncrypted>>, after: map<PackfileId, seq<BlobEncrypted>>,
                             ids: seq<PackfileId>, batches: seq<seq<BlobEncrypted>>)
  {
    |ids| == |batches| &&
    (forall id :: id in after ==> id in before || id in ids) &&
    (forall id :: id in before ==> id !in ids && id in after && after[id] == before[id]) &&
    forall i :: 0 <= i < |ids| ==> ids[i] in after && after[ids[i]] == batches[i]
  }

  /** Every batch stops at a threshold; the last may fall short of both when there is no more to come. */
  ghost predicate GreedyBatches(batches: seq<seq<BlobEncrypted>>, more: bool) {
    forall i :: 0 <= i < |batches| ==> Batch(batches[i]) && (i < |batches| - 1 || more ==> !BelowThresholds(batches[i]))
  }

  lemma {:induction false} BatchesSnoc(batches: seq<seq<BlobEncrypted>>, batch: seq<BlobEncrypted>, more: bool)
    requires GreedyBatches(batches, true) && Batch(batch) && (more ==> !BelowThresholds(batch))
    ensures GreedyBatches(batches + [batch], more)
  {
    hide Batch, BelowThresholds;
  }

  lemma {:induction false} BatchesDone(batches: seq<seq<BlobEncrypted>>)
    ensures GreedyBatches([], true)
    ensures GreedyBatches(batches, true) ==> GreedyBatches(batches, false)
  {
    hide Batch, BelowThresholds;
  }

  lemma {:induction false} BatchIsSome(batch: seq<BlobEncrypted>)
    ensures Batch(batch) ==> batch != []
  {
  }

  lemma {:induction false} PacksChanged(before: map<PackfileId, seq<BlobEncrypted>>, after: map<PackfileId,
      seq<BlobEncrypted>>,
                                        ids: seq<PackfileId>, batches: seq<seq<BlobEncrypted>>)
    requires AddedPacks(before, after, ids, batches)
    ensures after != before <==> batches != []
  {
    if batches != [] {
      assert ids[0] in ids && ids[0] in after;
    }
  }

  lemma {:induction false} AddedPacksSnoc(
      before: map<PackfileId, seq<BlobEncrypted>>, after: map<PackfileId, seq<BlobEncrypted>>,
      ids: seq<PackfileId>, batches: seq<seq<BlobEncrypted>>, id: PackfileId, batch: seq<BlobEncrypted>)
    requires AddedPacks(before, after, ids, batches)
    requires id !in after
    ensures AddedPacks(before, after[id := batch], ids + [id], batches + [batch])
  {
  }

  /** Handle, header and data are those of the batch, which is fit for a packfile once it is not empty. */
  ghost predicate Built(p: Primitives, offered: set<Blob>, batch: seq<BlobEncrypted>,
                        handle: seq<Hash>, header: seq<HeaderBlob>, data: Bytes)
  {
    DataSize(batch) < U64_LIMIT && header == HeaderOf(batch) && data == DataOf(batch) &&
    handle == HashesOf(batch) && NoDuplicates(handle) &&
    (batch != [] ==> PackOk(p, batch, offered))
  }

  lemma {:induction false} NothingBuilt(p: Primitives, offered: set<Blob>)
    ensures Built(p, offered, [], [], [], [])
    ensures DataSize([]) == 0
  {
  }

  /** One more blob at the end of a batch, in all three layouts. */
  lemma {:induction false} LayoutSnoc(batch: seq<BlobEncrypted>, blob: BlobEncrypted)
    requires DataSize(batch) < U64_LIMIT
    ensures DataSize(batch + [blob]) == DataSize(batch) + |blob.data| + NONCE_SIZE
    ensures DataOf(batch + [blob]) == DataOf(batch) + blob.nonce + blob.data
    ensures DataSize(batch + [blob]) < U64_LIMIT ==>
              HeaderOf(batch + [blob]) ==
              HeaderOf(batch) + [HeaderBlob(blob.hash, blob.kind, Zstd, |blob.data|, DataSize(batch))]
  {
    assert (batch + [blob])[..|batch|] == batch;
  }

  lemma {:induction false} BuildStep(p: Primitives, offered: set<Blob>, batch: seq<BlobEncrypted>,
      handle: seq<Hash>, header: seq<HeaderBlob>, data: Bytes, blob: BlobEncrypted)
    requires Built(p, offered, batch, handle, header, data) && BelowThresholds(batch)
    requires |blob.data| <= SEALED_MAX && Plain(p, blob).Ok? && Plain(p, blob).value in offered
    requires blob.hash !in handle
    ensures |data| < U64_LIMIT && |blob.data| < U64_LIMIT
    ensures Built(p, offered, batch + [blob], handle + [blob.hash],
                  header + [HeaderBlob(blob.hash, blob.kind, Zstd, |blob.data|, |data|)],
                  data + blob.nonce + blob.data)
    ensures |data + blob.nonce + blob.data| == DataSize(batch + [blob])
  {
    hide Plain, HeaderOf, DataOf, DataSize;
    LayoutSnoc(batch, blob);
    var batch' := batch + [blob];
    assert batch'[..|batch|] == batch;
    forall i | 0 <= i < |batch|
      ensures batch[i].hash != blob.hash
    {
      assert handle[i] == batch[i].hash;
    }
  }

  ghost predicate HoldsFirst(batch: seq<BlobEncrypted>, first: map<Hash, BlobEncrypted>, hash: Hash) {
    hash in first && first[hash].hash == hash && first[hash] in batch
  }

  lemma {:induction false} HeldEntries(packs: map<PackfileId, seq<BlobEncrypted>>, first: map<Hash, BlobEncrypted>,
                                       id: PackfileId, batch: seq<BlobEncrypted>, handle: seq<Hash>)
    requires forall h :: h in handle ==> HoldsFirst(batch, first, h)
    ensures forall h :: h in handle ==> EntryOk(packs[id := batch], first, (h, id))
  {
  }

  /** The file that a built batch is serialized to is its packfile, within the size limit, and its
      handle lists hashes of that packfile. */
  lemma {:induction false} BuiltImage(p: Primitives, offered: set<Blob>, batch: seq<BlobEncrypted>,
      handle: seq<Hash>, header: seq<HeaderBlob>, data: Bytes, id: PackfileId, first: map<Hash, BlobEncrypted>)
    requires Lawful(p)
    requires Built(p, offered, batch, handle, header, data) && batch != [] && AllFirst(batch, first)
    ensures |header| < U64_LIMIT && PackOk(p, batch, offered) && NoDuplicates(handle) && handle != []
    ensures PackImage(p, batch, id, SerializeParts(p, id, header, data))
    ensures |SerializeParts(p, id, header, data)| <= PACKFILE_MAX_SIZE
    ensures forall h :: h in handle ==> HoldsFirst(batch, first, h)
  {
    hide Lawful, Plain, SerializeParts;
    BatchFitsPackfile(p, id, batch);
    forall h | h in handle
      ensures HoldsFirst(batch, first, h)
    {
      var i :| 0 <= i < |handle| && handle[i] == h;
      assert batch[i] in batch && batch[i].hash == h;
    }
  }

  lemma {:induction false} BuiltEmpty(p: Primitives, offered: set<Blob>, batch: seq<BlobEncrypted>,
      handle: seq<Hash>, header: seq<HeaderBlob>, data: Bytes)
    requires Built(p, offered, batch, handle, header, data) && header == []
    ensures batch == [] && handle == []
  {
  }

  lemma {:induction false} BuiltBatch(p: Primitives, offered: set<Blob>, batch: seq<BlobEncrypted>,
      handle: seq<Hash>, header: seq<HeaderBlob>, data: Bytes)
    requires Built(p, offered, batch, handle, header, data) && header != []
    ensures batch != [] && Batch(batch)
  {
  }

  lemma {:induction false} NoBatches(packs: map<PackfileId, seq<BlobEncrypted>>, start: seq<BlobEncrypted>)
    ensures AddedPacks(packs, packs, [], [])
    ensures start == Concat([]) + start
  {
  }

  lemma {:induction false} NoEntries(id: PackfileId)
    ensures EntriesFor([], id) == []
  {
  }

  lemma {:induction false} NothingFresh(known: set<Hash>)
    ensures Fresh([], known) == []
  {
  }

  lemma {:induction false} AppendBatch(start: seq<BlobEncrypted>, batches: seq<seq<BlobEncrypted>>,
                                       batch: seq<BlobEncrypted>, rest: seq<BlobEncrypted>)
    requires start == Concat(batches) + (batch + rest)
    ensures start == Concat(batches + [batch]) + rest
    ensures batch == [] ==> start == Concat(batches) + rest
  {
    ConcatSnoc(batches, batch);
    Assoc(Concat(batches), batch, rest);
  }

  /** The packfiles written so far hold these batches of what was to be written, and the buffer has grown by
      them. */
  ghost predicate Booked(start: seq<BlobEncrypted>, rest: seq<BlobEncrypted>, more: bool,
                         packs0: map<PackfileId, seq<BlobEncrypted>>, packs: map<PackfileId, seq<BlobEncrypted>>,
                         written0: map<PackfileId, Bytes>, written: map<PackfileId, Bytes>,
                         ids: seq<PackfileId>, batches: seq<seq<BlobEncrypted>>, size0: nat, size: nat, exceeded: bool)
  {
    start == Concat(batches) + rest && GreedyBatches(batches, more) && AddedPacks(packs0, packs, ids, batches) &&
    Sized(written0, written, ids, size0, size, exceeded)
  }

  /** What was written when a packfile or an index file could not be. */
  ghost predicate BookedUntil(failure: Failure, start: seq<BlobEncrypted>, rest: seq<BlobEncrypted>, more: bool,
                              packs0: map<PackfileId, seq<BlobEncrypted>>, packs: map<PackfileId, seq<BlobEncrypted>>,
                              written0: map<PackfileId, Bytes>, written: map<PackfileId, Bytes>,
                              ids: seq<PackfileId>, batches: seq<seq<BlobEncrypted>>, size0: nat, size: nat)
  {
    start == Concat(batches) + (Unwritten(failure) + rest) &&
    GreedyBatches(batches, failure.PackfileUnwritten? || more) && AddedPacks(packs0, packs, ids, batches) &&
    NewFiles(written0, written, ids) && size == size0 + Total(SizesOf(written, Counted(ids, failure)))
  }

  lemma {:induction false} NothingBooked(start: seq<BlobEncrypted>, packs: map<PackfileId, seq<BlobEncrypted>>,
                                         written: map<PackfileId, Bytes>, size: nat)
    ensures Booked(start, start, true, packs, packs, written, written, [], [], size, size, false)
    ensures Booked(start, start, false, packs, packs, written, written, [], [], size, size, false)
  {
    hide Sized, AddedPacks;
    NoBatches(packs, start);
    BatchesDone([]);
    NothingSized(written, size);
  }

  lemma {:induction false} AllBooked(start: seq<BlobEncrypted>, packs0: map<PackfileId, seq<BlobEncrypted>>,
                                     packs: map<PackfileId, seq<BlobEncrypted>>,
                                     written0: map<PackfileId, Bytes>, written: map<PackfileId, Bytes>,
                                     ids: seq<PackfileId>, batches: seq<seq<BlobEncrypted>>,
                                     size0: nat, size: nat, exceeded: bool)
    requires Booked(start, [], false, packs0, packs, written0, written, ids, batches, size0, size, exceeded)
    ensures BookedUntil(NoFailure, start, [], false, packs0, packs, written0, written, ids, batches, size0, size)
    ensures exceeded <==> OverLimit(size0, SizesOf(written, ids))
    ensures batches == [] ==> start == []
  {
    hide AddedPacks, GreedyBatches, OverLimit, SizesOf, Total, NewFiles;
  }

  lemma {:induction false} BookedFacts(
      failure: Failure, start: seq<BlobEncrypted>, rest: seq<BlobEncrypted>, more: bool,
      packs0: map<PackfileId, seq<BlobEncrypted>>, packs: map<PackfileId, seq<BlobEncrypted>>,
      written0: map<PackfileId, Bytes>, written: map<PackfileId, Bytes>,
      ids: seq<PackfileId>, batches: seq<seq<BlobEncrypted>>, size0: nat, size: nat)
    requires BookedUntil(failure, start, rest, more, packs0, packs, written0, written, ids, batches, size0, size)
    ensures start == Concat(batches) + (Unwritten(failure) + rest)
    ensures GreedyBatches(batches, failure.PackfileUnwritten? || more) && AddedPacks(packs0, packs, ids, batches)
    ensures NewFiles(written0, written, ids) && size == size0 + Total(SizesOf(written, Counted(ids, failure)))
  {
    hide AddedPacks, GreedyBatches, SizesOf, Total, Concat, NewFiles, Unwritten, Counted;
  }

  /** One turn of writing packfiles: the batch is booked as written, or as unwritten, or there was none. */
  lemma {:induction false} TurnBooked(
      start: seq<BlobEncrypted>, rest: seq<BlobEncrypted>, more: bool,
      packs0: map<PackfileId, seq<BlobEncrypted>>, packs: map<PackfileId, seq<BlobEncrypted>>,
      packs': map<PackfileId, seq<BlobEncrypted>>, written0: map<PackfileId, Bytes>, written: map<PackfileId, Bytes>,
      written': map<PackfileId, Bytes>, ids: seq<PackfileId>, batches: seq<seq<BlobEncrypted>>, size0: nat, size: nat,
      exceeded: bool, id: PackfileId, batch: seq<BlobEncrypted>, file: Bytes, failure: Failure)
    requires Booked(start, batch + rest, true, packs0, packs, written0, written, ids, batches, size0, size, exceeded)
    requires failure.NoFailure? || (failure.batch == batch && batch != [])
    requires batch != [] ==> Batch(batch) && (more ==> !BelowThresholds(batch))
    requires if batch == [] || failure.PackfileUnwritten? then packs' == packs && written' == written
             else id !in packs && packs' == packs[id := batch] && id !in written && written' == written[id := file]
    ensures var saved := batch != [] && !failure.PackfileUnwritten?;
            var ids', batches' := if saved then ids + [id] else ids, if saved then batches + [batch] else batches;
            (failure.NoFailure? ==>
               Booked(start, rest, more, packs0, packs', written0, written', ids', batches', size0,
                      if saved then size + |file| else size,
                      exceeded || (saved && size > MAX_PACKFILE_LOCAL_BUFFER_SIZE))) &&
            (!failure.NoFailure? ==>
               BookedUntil(failure, start, rest, more, packs0, packs', written0, written', ids', batches', size0, size))
    ensures HashesIn(Lost(failure)) <= HashesIn(start) && (start == [] ==> batch == [])
  {
    hide HashesIn, Lost, AddedPacks, GreedyBatches, Concat, Batch, BelowThresholds, NewFiles, SizesOf, Total, OverLimit;
    HashesOfRest(Concat(batches), batch, rest, failure);
    AppendBatch(start, batches, batch, rest);
    if batch != [] && !failure.PackfileUnwritten? {
      AddedPacksSnoc(packs0, packs, ids, batches, id, batch);
      BatchesSnoc(batches, batch, more);
      SizedSnoc(written0, written, ids, size0, size, exceeded, id, file);
      assert (ids + [id])[..|ids|] == ids;
    } else {
      BatchesDone(batches);
    }
  }

  /** Taking the head of the queue, known or not, leaves the rest of the fresh blobs to come. */
  lemma {:induction false} FreshStep(queue: seq<BlobEncrypted>, known: set<Hash>, start: seq<BlobEncrypted>,
                                     batch: seq<BlobEncrypted>)
    requires queue != [] && start == batch + Fresh(queue, known)
    ensures queue[0].hash in known ==> start == batch + Fresh(queue[1..], known)
    ensures queue[0].hash !in known ==> start == (batch + [queue[0]]) + Fresh(queue[1..], known + {queue[0].hash})
  {
  }

  lemma {:induction false} QueueTail(p: Primitives, queue: seq<BlobEncrypted>, offered: set<Blob>)
    requires QueueOk(p, queue, offered) && queue != []
    ensures QueueOk(p, queue[1..], offered)
    ensures |queue[0].data| <= SEALED_MAX && Plain(p, queue[0]).Ok? && Plain(p, queue[0]).value in offered
    ensures HashesIn(queue) == HashesIn(queue[1..]) + {queue[0].hash}
  {
    assert queue == [queue[0]] + queue[1..];
  }

  lemma {:induction false} QueueAdd(p: Primitives, queue: seq<BlobEncrypted>, offered: set<Blob>, blob: Blob,
                                    nonce: Nonce)
    requires Lawful(p)
    requires QueueOk(p, queue, offered) && blob in offered && |blob.data| <= BLOB_MAX
    ensures QueueOk(p, queue + [EncryptBlob(p, blob, nonce)], offered)
    ensures HashesIn(queue + [EncryptBlob(p, blob, nonce)]) == HashesIn(queue) + {blob.hash}
  {
    DecryptInvertsEncrypt(p, blob, nonce);
  }

  lemma {:induction false} NothingQueued()
    ensures HashesIn([]) == {}
  {
  }

  lemma {:induction false} QueueOkMonotone(p: Primitives, queue: seq<BlobEncrypted>, offered: set<Blob>,
                                           more: set<Blob>)
    requires QueueOk(p, queue, offered) && offered <= more
    ensures QueueOk(p, queue, more)
  {
  }

  class Manager {
    const disk: Disk
    const index: BlobIndex
    var blobs: seq<BlobEncrypted>
    var dirty: bool
    var packfilesSize: nat

    /** What the system's random generator will deliver; when exhausted, drawing from it fails. */
    var randomIds: seq<PackfileId>
    var randomNonces: seq<Nonce>

    ghost predicate Valid()
      reads this`blobs, this`randomIds, index, disk
    {
      index.disk == disk &&
      index.Valid() &&
      QueueOk(disk.p, blobs, disk.offered) &&
      FirstsQueued(blobs, KnownSet(), disk.archive.first) &&
      IdsUsable()
    }

    /** No id is drawn twice, and none is that of a packfile already sent away. */
    ghost predicate IdsUsable()
      reads this`randomIds, disk`archive, disk`packs
    {
      NoDuplicates(randomIds) &&
      forall id :: id in randomIds && id in disk.archive.packs ==> id in disk.packs
    }

    ghost function Spare(): int
      reads this, index, disk
    {
      if disk.Reliable() then SpareOf(randomIds, disk.packs.Keys, |blobs|, |randomNonces|, index.lastFileNum) else -1
    }

    ghost function KnownSet(): set<Hash>
      reads index
    {
      index.blobsQueued + HashSet(index.items)
    }

    /** Every hash that is queued or known; deduplication relies on these being, or getting, saved. */
    ghost function Tracked(): set<Hash>
      reads this`blobs, index
    {
      HashesIn(blobs) + KnownSet()
    }

    constructor (disk: Disk, index: BlobIndex, packfilesSize: nat, ids: seq<PackfileId>, nonces: seq<Nonce>)
      ensures this.disk == disk && this.index == index && this.packfilesSize == packfilesSize
      ensures blobs == [] && !dirty && randomIds == ids && randomNonces == nonces
    {
      this.disk, this.index, this.packfilesSize := disk, index, packfilesSize;
      blobs, dirty, randomIds, randomNonces := [], false, ids, nonces;
    }

    /** Moves blobs from the queue into one packfile until a threshold is reached or none is left. */
    method FillPackfile()
        returns (handle: seq<Hash>, header: seq<HeaderBlob>, data: Bytes, ghost batch: seq<BlobEncrypted>)
      requires Valid()
      modifies this`blobs, index`blobsQueued, index`unsaved
      ensures Valid()
      ensures old(blobs) != [] ==> |blobs| < |old(blobs)|
      ensures |batch| + |blobs| <= |old(blobs)|
      ensures old(KnownSet()) <= KnownSet()
      ensures Built(disk.p, disk.offered, batch, handle, header, data)
      ensures Fresh(old(blobs), old(KnownSet())) == batch + Fresh(blobs, KnownSet())
      ensures blobs == [] || !BelowThresholds(batch)
      ensures AllFirst(batch, disk.archive.first)
      ensures index.unsaved == old(index.unsaved) + (set h | h in handle)
      ensures forall h :: h in handle ==> h !in old(index.unsaved)
      ensures Tracked() == old(Tracked())
      ensures index.Log() == old(index.Log())
    {
      hide HeaderOf, DataOf, HashesOf, ArchiveOk, IndexImage, EntriesOk, UniqueHashes, Lawful, Fresh, Plain, QueueOk,
           HashesIn, IdsUsable, Disk.Valid, Built, DataSize, BlobIndex.Valid, BlobIndex.Known, HashSet, FirstsQueued,
           AllFirst;
      handle, header, data, batch := [], [], [], [];
      NothingBuilt(disk.p, disk.offered);
      NoneFirst(disk.archive.first);
      ghost var start := Fresh(blobs, KnownSet());
      assert start == batch + start;
      while blobs != []
        invariant Valid()
        invariant Built(disk.p, disk.offered, batch, handle, header, data)
        invariant BelowThresholds(batch) && |data| == DataSize(batch) && |header| == |batch|
        invariant AllFirst(batch, disk.archive.first)
        invariant start == batch + Fresh(blobs, KnownSet())
        invariant index.unsaved == old(index.unsaved) + (set h | h in handle)
        invariant forall h :: h in handle ==> h in KnownSet() && h !in old(index.unsaved)
        invariant Tracked() == old(Tracked())
        invariant index.Log() == old(index.Log())
        invariant blobs == old(blobs) || |blobs| < |old(blobs)|
        invariant |batch| + |blobs| <= |old(blobs)|
        invariant old(KnownSet()) <= KnownSet()
        decreases |blobs|
      {
        var blob := blobs[0];
        FreshStep(blobs, KnownSet(), start, batch);
        FirstsTail(blobs, KnownSet(), disk.archive.first);
        QueueTail(disk.p, blobs, disk.offered);
        index.ValidFacts(blob.hash);
        blobs := blobs[1..];
        var duplicate := index.IsBlobDuplicate(blob.hash);
        if duplicate {
          continue;
        }
        BuildStep(disk.p, disk.offered, batch, handle, header, data, blob);
        header := header + [HeaderBlob(blob.hash, blob.kind, Zstd, |blob.data|, |data|)];
        data := data + blob.nonce + blob.data;
        ghost var known := KnownSet();
        var r;
        handle, r := index.AddToPackfile(handle, blob.hash);
        assert r.Ok?;
        assert KnownSet() == known + {blob.hash};
        OneMoreFirst(batch, disk.archive.first, blob);
        batch := batch + [blob];
        if |data| >= PACKFILE_TARGET_SIZE || |header| >= PACKFILE_MAX_BLOBS {
          break;
        }
      }
    }

    /** Creates the file of one packfile and indexes its hashes. Those not entered when an index file cannot
        be written stay unsaved. */
    method WriteAndIndex(id: PackfileId, buffer: Bytes, handle: seq<Hash>, ghost batch: seq<BlobEncrypted>)
        returns (r: Result<(), PackfileError>, ghost entered: nat)
      requires Valid()
      requires PackOk(disk.p, batch, disk.offered) && PackImage(disk.p, batch, id, buffer) && NoDuplicates(handle) &&
               handle != []
      requires forall h :: h in handle ==> h in index.unsaved && HoldsFirst(batch, disk.archive.first, h)
      requires id in disk.archive.packs ==> id in disk.packs
      modifies index`itemsBuf, index`lastFileNum, index`dirty, index`unsaved
      modifies disk`packs, disk`indexFiles, disk`faults, disk`archive, disk`written, disk`order, disk`history
      ensures Valid()
      ensures old(disk.Complete()) ==> disk.Complete()
      ensures old(disk.history) <= disk.history
      ensures disk.archive.first == old(disk.archive.first)
      ensures entered <= |handle| && (r.Ok? ==> entered == |handle|)
      ensures entered == 0 <==> id in old(disk.packs) || old(disk.WriteFails())
      ensures entered == 0 ==> r == Err(IoError) && disk.archive == old(disk.archive) && disk.packs == old(disk.packs)
      ensures entered > 0 ==>
                id !in old(disk.archive.packs) && disk.archive.packs == old(disk.archive.packs)[id := batch]
      ensures entered > 0 ==> disk.packs == old(disk.packs)[id := buffer]
      ensures disk.written == if entered > 0 then old(disk.written)[id := buffer] else old(disk.written)
      ensures index.unsaved == old(index.unsaved) - (set h | h in handle[..entered])
      ensures index.Log() == old(index.Log()) + EntriesFor(handle[..entered], id)
      ensures r.Err? ==> r.error in {IoError, IndexCounterOverflow}
      ensures r.Err? && entered > 0 ==> |index.itemsBuf| >= MAX_FILE_ENTRIES
      ensures r == Err(IndexCounterOverflow) ==> entered > 0 && old(index.lastFileNum) + |handle| > U32_MAX
      ensures r == Err(IoError) && entered > 0 ==> !old(disk.Reliable())
      ensures old(index.lastFileNum) <= index.lastFileNum <= old(index.lastFileNum) + |handle|
      ensures index.Bounded() <==> old(index.Bounded()) && !(old(index.Full()) && entered > 0)
      ensures index.Full() <==> if entered > 0 then r.Err? else old(index.Full())
      ensures old(disk.Reliable()) ==> disk.Reliable()
      ensures old(disk.Reliable() && index.Trim()) ==> index.Trim()
    {
      hide PackOk, PackImage, QueueOk, HashSet, HoldsFirst, FirstsQueued, EntryOk, EntriesFor, BlobIndex.AgreesWith,
           Disk.Valid, Lawful;
      entered := 0;
      ghost var a := disk.archive;
      assert index.AgreesWith(a);
      NoEntries(id);
      assert handle[..0] == [];
      var created := disk.CreatePackfile(id, buffer, batch);
      if !created {
        return Err(IoError), entered;
      }
      index.AgreesWithNewPack(a, id, batch);
      HeldEntries(a.packs, a.first, id, batch, handle);
      r, entered := index.FinalizePackfile(handle, id);
    }

    method DrawId() returns (drawn: Option<PackfileId>)
      requires Valid()
      modifies this`randomIds
      ensures Valid() && drawn == (if old(randomIds) == [] then None else Some(old(randomIds)[0]))
      ensures randomIds == if old(randomIds) == [] then [] else old(randomIds)[1..]
      ensures drawn.Some? && drawn.value in disk.archive.packs ==> drawn.value in disk.packs
    {
      hide QueueOk, FirstsQueued, HashSet, BlobIndex.AgreesWith, Disk.Valid;
      if randomIds == [] {
        return None;
      }
      drawn := Some(randomIds[0]);
      randomIds := randomIds[1..];
    }

    lemma {:induction false} SavingFacts()
      requires Valid()
      ensures index.disk == disk && index.Valid() && Lawful(disk.p)
    {
      hide QueueOk, FirstsQueued, HashSet, BlobIndex.AgreesWith, ArchiveOk, IndexImage, Manager.IdsUsable;
      index.ValidFacts(seq(32, _ => 0));
    }

    /** Serializes one packfile, writes it under a fresh random id and indexes it; says whether the local
        buffer was over its limit before this packfile was added. */
    method SavePackfile(handle: seq<Hash>, header: seq<HeaderBlob>, data: Bytes, ghost batch: seq<BlobEncrypted>)
        returns (r: Result<bool, PackfileError>, ghost id: PackfileId, ghost entered: nat)
      requires Valid()
      requires batch != [] && Built(disk.p, disk.offered, batch, handle, header, data) &&
               AllFirst(batch, disk.archive.first)
      requires forall h :: h in handle ==> h in index.unsaved
      modifies this`packfilesSize, this`randomIds
      modifies index`itemsBuf, index`lastFileNum, index`dirty, index`unsaved
      modifies disk`packs, disk`indexFiles, disk`faults, disk`archive, disk`written, disk`order, disk`history
      ensures Valid()
      ensures old(disk.Complete()) ==> disk.Complete()
      ensures old(disk.history) <= disk.history
      ensures disk.archive.first == old(disk.archive.first)
      ensures entered <= |handle| && (r.Ok? ==> entered == |handle|)
      ensures entered == 0 <==> old(randomIds) == [] || old(randomIds)[0] in old(disk.packs) || old(disk.WriteFails())
      ensures entered == 0 ==> disk.archive == old(disk.archive) && disk.packs == old(disk.packs)
      ensures entered > 0 ==>
                id !in old(disk.archive.packs) && disk.archive.packs == old(disk.archive.packs)[id := batch]
      ensures index.unsaved == old(index.unsaved) - (set h | h in handle[..entered])
      ensures index.Log() == old(index.Log()) + EntriesFor(handle[..entered], id)
      ensures r == Err(GetrandomError) <==> old(randomIds) == []
      ensures r.Err? ==> r.error in {GetrandomError, IoError, IndexCounterOverflow}
      ensures r.Err? && entered > 0 ==> |index.itemsBuf| >= MAX_FILE_ENTRIES && r.error != GetrandomError
      ensures r == Err(IndexCounterOverflow) ==> entered > 0 && old(index.lastFileNum) + |handle| > U32_MAX
      ensures r == Err(IoError) && entered > 0 ==> !old(disk.Reliable())
      ensures old(randomIds) == [] ==> randomIds == [] && index.lastFileNum == old(index.lastFileNum)
      ensures old(randomIds) != [] ==> randomIds == old(randomIds)[1..]
      ensures r.Ok? ==> disk.packs.Keys == old(disk.packs.Keys) + {old(randomIds)[0]}
      ensures old(index.lastFileNum) <= index.lastFileNum <= old(index.lastFileNum) + |handle|
      ensures r.Ok? ==> r.value == (old(packfilesSize) > MAX_PACKFILE_LOCAL_BUFFER_SIZE)
      ensures r.Ok? ==> id in disk.packs && |disk.packs[id]| <= PACKFILE_MAX_SIZE
      ensures r.Ok? ==> packfilesSize == old(packfilesSize) + |disk.packs[id]|
      ensures r.Err? ==> packfilesSize == old(packfilesSize)
      ensures entered > 0 ==> id in disk.packs && disk.written == old(disk.written)[id := disk.packs[id]]
      ensures entered == 0 ==> disk.written == old(disk.written)
      ensures index.Bounded() <==> old(index.Bounded()) && !(old(index.Full()) && entered > 0)
      ensures index.Full() <==> if entered > 0 then r.Err? else old(index.Full())
      ensures old(disk.Reliable()) ==> disk.Reliable()
      ensures old(disk.Reliable() && index.Trim()) ==> index.Trim()
    {
      hide BlobIndex.Log, Manager.Valid, BlobIndex.Bounded, BlobIndex.Full, BlobIndex.Trim, PackOk, PackImage,
           SerializeParts, Built, QueueOk, HashSet, HoldsFirst, AllFirst, FirstsQueued, EntryOk, EntriesFor, HashesIn,
           SpareOf, BlobIndex.AgreesWith, Disk.Valid, Disk.Complete, Lawful;
      SavingFacts();
      id, entered := seq(12, _ => 0), 0;
      NoEntries(id);
      assert handle[..0] == [];
      var drawn := DrawId();
      if drawn.None? {
        return Err(GetrandomError), id, entered;
      }
      id := drawn.value;
      NoEntries(id);
      BuiltImage(disk.p, disk.offered, batch, handle, header, data, id, disk.archive.first);
      var buffer := SerializeParts(disk.p, drawn.value, header, data);
      assert |buffer| <= PACKFILE_MAX_SIZE;
      var written;
      written, entered := WriteAndIndex(drawn.value, buffer, handle, batch);
      if written.Err? {
        return Err(written.error), id, entered;
      }
      var before := packfilesSize;
      packfilesSize := packfilesSize + |buffer|;
      return Ok(before > MAX_PACKFILE_LOCAL_BUFFER_SIZE), id, entered;
    }

    lemma {:induction false} UnsavedFacts()
      requires Valid()
      ensures index.unsaved <= KnownSet() <= Tracked() && disk.Valid()
    {
      hide QueueOk, FirstsQueued, HashSet, BlobIndex.AgreesWith, Disk.Valid, Manager.IdsUsable;
      index.NumberFacts();
    }

    lemma {:induction false} WrittenKeys()
      requires Valid()
      ensures disk.written.Keys == disk.archive.packs.Keys
    {
      hide QueueOk, FirstsQueued, HashSet, BlobIndex.AgreesWith, ArchiveOk, IndexImage, PackImage, WrittenInOrder;
    }

    lemma {:induction false} UsableIds()
      requires Valid()
      ensures NoDuplicates(randomIds)
    {
      hide QueueOk, FirstsQueued, HashSet, BlobIndex.AgreesWith, Disk.Valid;
    }

    /** Saves the batch that has been built. Of its hashes those remain unsaved whose blobs are lost. */
    method SaveBatch(handle: seq<Hash>, header: seq<HeaderBlob>, data: Bytes, ghost batch: seq<BlobEncrypted>)
        returns (r: Result<bool, PackfileError>, ghost id: PackfileId, ghost failure: Failure, ghost file: Bytes)
      requires Valid()
      requires Batch(batch) && Built(disk.p, disk.offered, batch, handle, header, data) &&
               AllFirst(batch, disk.archive.first)
      requires forall h :: h in handle ==> h in index.unsaved
      modifies this`packfilesSize, this`randomIds
      modifies index`itemsBuf, index`lastFileNum, index`dirty, index`unsaved
      modifies disk`packs, disk`indexFiles, disk`faults, disk`archive, disk`written, disk`order, disk`history
      ensures Valid()
      ensures old(disk.Complete()) ==> disk.Complete()
      ensures old(disk.history) <= disk.history
      ensures disk.archive.first == old(disk.archive.first)
      ensures HashesIn(Lost(failure)) <= HashesIn(batch)
      ensures index.unsaved == old(index.unsaved) - HashesIn(batch) + HashesIn(Lost(failure))
      ensures r.Ok? ==> failure == NoFailure
      ensures r.Err? ==>
                Reports(failure, r.error) && WriteFailure(r.error) && FailureOk(failure) && !failure.NoFailure? &&
                failure.batch == batch
      ensures failure.PackfileUnwritten? ==> disk.archive.packs == old(disk.archive.packs)
      ensures !failure.PackfileUnwritten? ==>
                id !in old(disk.archive.packs) && disk.archive.packs == old(disk.archive.packs)[id := batch]
      ensures r.Ok? ==> r.value == (old(packfilesSize) > MAX_PACKFILE_LOCAL_BUFFER_SIZE)
      ensures !failure.PackfileUnwritten? ==> disk.written == old(disk.written)[id := file]
      ensures failure.PackfileUnwritten? ==> disk.written == old(disk.written)
      ensures packfilesSize == if r.Ok? then old(packfilesSize) + |file| else old(packfilesSize)
      ensures r == Err(GetrandomError) <==> old(randomIds) == []
      ensures old(randomIds) == [] ==> randomIds == [] && index.lastFileNum == old(index.lastFileNum)
      ensures r.Ok? ==>
                randomIds == old(randomIds)[1..] && disk.packs.Keys == old(disk.packs.Keys) + {old(randomIds)[0]}
      ensures r.Ok? ==> old(index.lastFileNum) <= index.lastFileNum <= old(index.lastFileNum) + |batch|
      ensures index.Bounded() <==> old(index.Bounded()) && !(old(index.Full()) && !failure.PackfileUnwritten?)
      ensures index.Full() <==> if !failure.PackfileUnwritten? then failure.IndexUnwritten? else old(index.Full())
      ensures old(disk.Reliable()) ==> disk.Reliable()
      ensures old(disk.Reliable() && index.Trim()) ==> index.Trim()
      ensures old(disk.Reliable() && |randomIds| > 0 && randomIds[0] !in disk.packs) &&
              old(index.lastFileNum) + |batch| <= U32_MAX ==>
                r.Ok?
    {
      hide BlobIndex.Bounded, BlobIndex.Full, BlobIndex.Trim, PackOk, Built, QueueOk, HashSet, AllFirst, FirstsQueued,
           EntriesFor, HashesIn, Batch, BlobIndex.AgreesWith, Disk.Valid, Disk.Complete, Manager.IdsUsable;
      BuiltHashes(disk.p, disk.offered, batch, handle, header, data);
      BatchIsSome(batch);
      ghost var entered;
      r, id, entered := SavePackfile(handle, header, data, batch);
      BuiltRest(disk.p, disk.offered, batch, handle, header, data, entered);
      NothingQueued();
      file := if entered > 0 then disk.packs[id] else [];
      failure := if r.Ok? then NoFailure
                 else if entered == 0 then PackfileUnwritten(batch)
                 else IndexUnwritten(batch, entered);
      assert Lost(failure) == batch[entered..];
    }

    /** The sender's turn: it deletes packfiles that peers have acknowledged. The generator does not repeat
        the id of one that has been sent away. */
    method LetSenderDelete()
      requires Valid()
      modifies disk`packs, disk`deletions
      ensures Valid()
      ensures disk.packs.Keys <= old(disk.packs.Keys) && forall id :: id in disk.packs ==>
                disk.packs[id] == old(disk.packs)[id]
      ensures Spare() >= old(Spare())
      ensures old(disk.Complete()) ==> disk.Complete()
    {
      hide QueueOk, HashSet, HashesIn, FirstsQueued, SpareOf, BlobIndex.AgreesWith, Disk.Valid;
      ghost var packs0 := disk.packs.Keys;
      var turn := disk.NextDeletions();
      for k := 0 to |turn|
        invariant Valid() && disk.packs.Keys <= packs0
        invariant forall id :: id in disk.packs ==> disk.packs[id] == old(disk.packs)[id]
        invariant old(disk.Complete()) ==> disk.Complete() && turn == []
      {
        if turn[k] !in randomIds {
          disk.RemovePackfile(turn[k]);
        }
      }
      SpareAfterDeletion(randomIds, packs0, |blobs|, |randomNonces|, index.lastFileNum, disk.packs.Keys);
    }

    /** Takes one batch from the queue and writes its packfile, unless deduplication leaves the batch empty.
        If that fails, the blobs of the batch that are not indexed are lost: not queued, and marked as such. */
    method WriteOnePackfile()
        returns (r: Result<bool, PackfileError>, ghost id: PackfileId, ghost batch: seq<BlobEncrypted>,
                 ghost failure: Failure, ghost file: Bytes)
      requires Valid() && blobs != []
      modifies this`blobs, this`packfilesSize, this`randomIds
      modifies index`blobsQueued, index`itemsBuf, index`lastFileNum, index`dirty, index`unsaved
      modifies disk`packs, disk`indexFiles, disk`faults, disk`deletions
      modifies disk`archive, disk`written, disk`order, disk`history
      ensures Valid()
      ensures old(disk.Complete()) ==> disk.Complete()
      ensures old(disk.history) <= disk.history
      ensures Tracked() == old(Tracked()) && disk.archive.first == old(disk.archive.first)
      ensures |blobs| < |old(blobs)| && old(KnownSet()) <= KnownSet()
      ensures Fresh(old(blobs), old(KnownSet())) == batch + Fresh(blobs, KnownSet())
      ensures batch != [] ==> Batch(batch) && (blobs == [] || !BelowThresholds(batch))
      ensures index.unsaved == old(index.unsaved) + HashesIn(Lost(failure))
      ensures r.Ok? ==> failure == NoFailure
      ensures r.Err? ==> batch != [] && Reports(failure, r.error) && WriteFailure(r.error) && FailureOk(failure) &&
                         !failure.NoFailure? && failure.batch == batch
      ensures batch == [] ==> index.lastFileNum == old(index.lastFileNum) && disk.faults == old(disk.faults)
      ensures batch == [] || failure.PackfileUnwritten? ==> disk.archive.packs == old(disk.archive.packs)
      ensures batch != [] && !failure.PackfileUnwritten? ==>
                id !in old(disk.archive.packs) && disk.archive.packs == old(disk.archive.packs)[id := batch]
      ensures r.Ok? ==> r.value == (batch != [] && old(packfilesSize) > MAX_PACKFILE_LOCAL_BUFFER_SIZE)
      ensures batch == [] || failure.PackfileUnwritten? ==> disk.written == old(disk.written)
      ensures batch != [] && !failure.PackfileUnwritten? ==>
                id !in old(disk.written) && disk.written == old(disk.written)[id := file]
      ensures packfilesSize == if r.Ok? && batch != [] then old(packfilesSize) + |file| else old(packfilesSize)
      ensures Spare() >= old(Spare()) && (old(Spare()) >= 0 ==> r.Ok?)
      ensures old(randomIds) == [] && batch != [] ==> r == Err(GetrandomError)
      ensures old(randomIds) == [] ==> randomIds == [] && index.lastFileNum == old(index.lastFileNum)
      ensures index.Bounded() <==>
                old(index.Bounded()) && !(old(index.Full()) && batch != [] && !failure.PackfileUnwritten?)
      ensures index.Full() <==>
                if batch != [] && !failure.PackfileUnwritten? then failure.IndexUnwritten? else old(index.Full())
      ensures old(disk.Reliable()) ==> disk.Reliable()
      ensures old(disk.Reliable() && index.Trim()) ==> index.Trim()
    {
      hide BlobIndex.Log, BlobIndex.Valid, DataSize, HeaderOf, DataOf, Disk.Reliable, PackOk, BlobIndex.Bounded,
           BlobIndex.Full, BlobIndex.Trim, Fresh, Built, QueueOk, HashSet, HashesIn, FirstsQueued, AllFirst, Batch,
           BelowThresholds, EntriesFor, BlobIndex.AgreesWith, Disk.Valid, Manager.IdsUsable, SpareOf, Disk.Complete;
      id, failure, file := seq(12, _ => 0), NoFailure, [];
      NothingQueued();
      LetSenderDelete();
      ghost var queued, ids0, packs0, files0 := |blobs|, randomIds, disk.packs.Keys, index.lastFileNum;
      var handle, header, data;
      handle, header, data, batch := FillPackfile();
      BuiltHashes(disk.p, disk.offered, batch, handle, header, data);
      if |header| == 0 {
        BuiltEmpty(disk.p, disk.offered, batch, handle, header, data);
        SpareAfterSkip(randomIds, disk.packs.Keys, queued, |randomNonces|, index.lastFileNum, |blobs|);
        return Ok(false), id, batch, failure, file;
      }
      BuiltBatch(disk.p, disk.offered, batch, handle, header, data);
      UsableIds();
      WrittenKeys();
      r, id, failure, file := SaveBatch(handle, header, data, batch);
      if r.Ok? {
        SpareAfterSave(ids0, packs0, queued, |randomNonces|, files0, |batch|, |blobs|, index.lastFileNum);
      }
    }

    /** Writes packfiles until the queue is empty. The batches written, in order, are exactly the queued
        blobs without those known already and without repeats, cut at the thresholds. When writing fails, the
        rest stays queued, but of the batch held what has not been indexed is lost. */
    method WritePackfiles(reportBufferLimit: bool)
        returns (r: Result<nat, PackfileError>, ghost ids: seq<PackfileId>, ghost batches: seq<seq<BlobEncrypted>>,
                 ghost failure: Failure)
      requires Valid()
      modifies this`blobs, this`packfilesSize, this`randomIds
      modifies index`blobsQueued, index`itemsBuf, index`lastFileNum, index`dirty, index`unsaved
      modifies disk`packs, disk`indexFiles, disk`faults, disk`deletions
      modifies disk`archive, disk`written, disk`order, disk`history
      ensures Valid()
      ensures old(disk.Complete()) ==> disk.Complete()
      ensures old(disk.history) <= disk.history
      ensures Tracked() == old(Tracked())
      ensures disk.archive.first == old(disk.archive.first)
      ensures Written(r) ==> blobs == []
      ensures Fresh(old(blobs), old(KnownSet())) == Concat(batches) + (Unwritten(failure) + Fresh(blobs, KnownSet()))
      ensures AddedPacks(old(disk.archive.packs), disk.archive.packs, ids, batches)
      ensures GreedyBatches(batches, failure.PackfileUnwritten? || blobs != [])
      ensures failure.PackfileUnwritten? ==> blobs == [] || !BelowThresholds(failure.batch)
      ensures failure.IndexUnwritten? ==>
                failure.batch != [] && batches != [] && batches[|batches| - 1] == failure.batch
      ensures failure == NoFailure <==> Written(r)
      ensures FailureOk(failure) && (r.Err? ==> Reports(failure, r.error))
      ensures index.unsaved == old(index.unsaved) + HashesIn(Lost(failure))
      ensures r.Err? && r.error == ExceededBufferLimit ==> reportBufferLimit
      ensures r.Ok? ==> r.value == packfilesSize
      ensures r.Err? ==> r.error == ExceededBufferLimit || WriteFailure(r.error)
      ensures NewFiles(old(disk.written), disk.written, ids)
      ensures packfilesSize == old(packfilesSize) + Total(SizesOf(disk.written, Counted(ids, failure)))
      ensures Written(r) ==>
                (r == Err(ExceededBufferLimit) <==>
                 reportBufferLimit && OverLimit(old(packfilesSize), SizesOf(disk.written, ids)))
      ensures Spare() >= old(Spare()) && (old(Spare()) >= 0 ==> Written(r))
      ensures old(KnownSet()) <= KnownSet() && HashesIn(Lost(failure)) <= HashesIn(old(blobs)) - old(KnownSet())
      ensures Fresh(old(blobs), old(KnownSet())) == [] ==>
                Written(r) && index.lastFileNum == old(index.lastFileNum) && disk.faults == old(disk.faults)
      ensures old(randomIds) == [] && Fresh(old(blobs), old(KnownSet())) != [] ==> r == Err(GetrandomError)
      ensures old(randomIds) == [] ==> randomIds == [] && index.lastFileNum == old(index.lastFileNum)
      ensures index.Bounded() <==> old(index.Bounded()) && !(old(index.Full()) && batches != [])
      ensures index.Full() <==> if batches != [] then failure.IndexUnwritten? else old(index.Full())
      ensures old(disk.Reliable()) ==> disk.Reliable()
      ensures old(disk.Reliable() && index.Trim()) ==> index.Trim()
    {
      hide Sized, Disk.Reliable, Booked, BookedUntil, SizesOf, Total, OverLimit, NewFiles, BlobIndex.Bounded,
           BlobIndex.Full, BlobIndex.Trim, Manager.Tracked, Manager.KnownSet, FailureOk, Lost, Reports, Fresh, QueueOk,
           HashSet, HashesIn, FirstsQueued, AddedPacks, Batch, Concat, BelowThresholds, GreedyBatches, SpareOf,
           BlobIndex.AgreesWith, Disk.Valid, Manager.IdsUsable, Manager.Valid, Manager.Spare, Disk.Complete;
      var bufferLimitExceeded := false;
      ids, batches, failure := [], [], NoFailure;
      ghost var start := Fresh(blobs, KnownSet());
      NothingBooked(start, disk.archive.packs, disk.written, packfilesSize);
      NothingQueued();
      NothingFailed();
      FreshHashes(blobs, KnownSet());
      while blobs != []
        invariant Valid() && failure == NoFailure
        invariant old(disk.history) <= disk.history
        invariant old(disk.Complete()) ==> disk.Complete()
        invariant Tracked() == old(Tracked())
        invariant index.unsaved == old(index.unsaved) && disk.archive.first == old(disk.archive.first)
        invariant Booked(start, Fresh(blobs, KnownSet()), blobs != [], old(disk.archive.packs), disk.archive.packs,
                         old(disk.written), disk.written, ids, batches, old(packfilesSize), packfilesSize,
                         bufferLimitExceeded)
        invariant Spare() >= old(Spare())
        invariant old(KnownSet()) <= KnownSet()
        invariant start == [] ==> batches == []
        invariant batches == [] ==> index.lastFileNum == old(index.lastFileNum) && disk.faults == old(disk.faults)
        invariant old(randomIds) == [] ==>
                    randomIds == [] && batches == [] && index.lastFileNum == old(index.lastFileNum)
        invariant old(disk.Reliable()) ==> disk.Reliable()
        invariant index.Bounded() <==> old(index.Bounded()) && !(old(index.Full()) && batches != [])
        invariant index.Full() <==> batches == [] && old(index.Full())
        invariant old(disk.Reliable() && index.Trim()) ==> index.Trim()
        decreases |blobs|
      {
        ghost var packs, written, size := disk.archive.packs, disk.written, packfilesSize;
        var exceeded; ghost var id, batch, file;
        exceeded, id, batch, failure, file := WriteOnePackfile();
        TurnBooked(start, Fresh(blobs, KnownSet()), blobs != [], old(disk.archive.packs), packs, disk.archive.packs,
                   old(disk.written), written, disk.written, ids, batches, old(packfilesSize), size,
                   bufferLimitExceeded, id, batch, file, failure);
        if batch != [] && !failure.PackfileUnwritten? {
          ids, batches := ids + [id], batches + [batch];
        }
        if exceeded.Err? {
          BookedFacts(failure, start, Fresh(blobs, KnownSet()), blobs != [], old(disk.archive.packs),
                      disk.archive.packs, old(disk.written), disk.written, ids, batches, old(packfilesSize),
                      packfilesSize);
          return Err(exceeded.error), ids, batches, failure;
        }
        if exceeded.value {
          bufferLimitExceeded := true;
        }
      }
      NothingFresh(KnownSet());
      AllBooked(start, old(disk.archive.packs), disk.archive.packs, old(disk.written), disk.written, ids, batches,
                old(packfilesSize), packfilesSize, bufferLimitExceeded);
      BookedFacts(failure, start, [], false, old(disk.archive.packs), disk.archive.packs, old(disk.written),
                  disk.written, ids, batches, old(packfilesSize), packfilesSize);
      if bufferLimitExceeded && reportBufferLimit {
        return Err(ExceededBufferLimit), ids, batches, failure;
      }
      return Ok(packfilesSize), ids, batches, failure;
    }

    /** Total size and number of the queued blobs that are not known yet. */
    method Candidates() returns (size: nat, count: nat)
      requires Valid()
      ensures count == |NotKnown(blobs, KnownSet())| && size == TotalSize(NotKnown(blobs, KnownSet()))
    {
      hide BlobIndex.Valid, QueueOk, FirstsQueued, Manager.IdsUsable, HashSet, NotKnown, TotalSize;
      size, count := 0, 0;
      NotKnownNothing(KnownSet());
      var i := 0;
      while i < |blobs|
        invariant 0 <= i <= |blobs|
        invariant count == |NotKnown(blobs[..i], KnownSet())| && size == TotalSize(NotKnown(blobs[..i], KnownSet()))
      {
        NotKnownStep(blobs, i, KnownSet());
        index.ValidFacts(blobs[i].hash);
        var duplicate := index.IsBlobDuplicate(blobs[i].hash);
        if !duplicate {
          size, count := size + |blobs[i].data|, count + 1;
        }
        i := i + 1;
      }
      assert blobs[..i] == blobs;
    }

    /** Third section of add_blob: whether enough has gathered in the queue to be written out. */
    method MeasureQueue() returns (progress: AddProgress)
      requires Valid()
      ensures progress == if WriteDesired() then Going(Writing) else Replied(Ok(None))
    {
      hide BlobIndex.Valid, QueueOk, FirstsQueued, Manager.IdsUsable, HashSet, NotKnown, TotalSize;
      var size, count := Candidates();
      if size >= PACKFILE_TARGET_SIZE || count >= PACKFILE_MAX_BLOBS {
        return Going(Writing);
      }
      return Replied(Ok(None));
    }

    /** Writes the queue out once enough has gathered in it. */
    method TriggerWriteIfDesired()
        returns (r: Result<Option<nat>, PackfileError>, ghost failure: Failure, ghost ids: seq<PackfileId>)
      requires Valid()
      modifies this`blobs, this`packfilesSize, this`randomIds
      modifies index`blobsQueued, index`itemsBuf, index`lastFileNum, index`dirty, index`unsaved
      modifies disk`packs, disk`indexFiles, disk`faults, disk`deletions
      modifies disk`archive, disk`written, disk`order, disk`history
      ensures Valid()
      ensures old(disk.Complete()) ==> disk.Complete()
      ensures old(disk.history) <= disk.history
      ensures Tracked() == old(Tracked())
      ensures !failure.NoFailure? <==> r.Err? && WriteFailure(r.error)
      ensures FailureOk(failure) && (r.Err? ==> Reports(failure, r.error))
      ensures old(KnownSet()) <= KnownSet() && HashesIn(Lost(failure)) <= HashesIn(old(blobs)) - old(KnownSet())
      ensures old(randomIds) == [] ==> randomIds == [] && index.lastFileNum == old(index.lastFileNum)
      ensures old(randomIds) == [] ==> r == Ok(None) || r == Err(GetrandomError)
      ensures index.unsaved == old(index.unsaved) + HashesIn(Lost(failure))
      ensures failure.IndexUnwritten? ==> failure.batch != [] && disk.archive.packs != old(disk.archive.packs)
      ensures index.Bounded() <==>
                old(index.Bounded()) && !(old(index.Full()) && disk.archive.packs != old(disk.archive.packs))
      ensures index.Full() <==>
                if disk.archive.packs != old(disk.archive.packs) then failure.IndexUnwritten? else old(index.Full())
      ensures old(disk.Reliable()) ==> disk.Reliable()
      ensures old(disk.Reliable() && index.Trim()) ==> index.Trim()
      ensures Spare() >= old(Spare()) && (old(Spare()) >= 0 ==> r.Ok? || r.error == ExceededBufferLimit)
      ensures disk.archive.first == old(disk.archive.first)
      ensures NewFiles(old(disk.written), disk.written, ids)
      ensures failure.NoFailure? ==> packfilesSize == old(packfilesSize) + Total(SizesOf(disk.written, ids))
      ensures GoesOn(r) ==>
                (r == Err(ExceededBufferLimit) <==> OverLimit(old(packfilesSize), SizesOf(disk.written, ids)))
      ensures r == Ok(None) <==> !old(WriteDesired())
      ensures r == Ok(None) ==>
                blobs == old(blobs) && disk.archive == old(disk.archive) && KnownSet() == old(KnownSet())
      ensures r != Ok(None) && (r.Ok? || r.error == ExceededBufferLimit) ==> blobs == []
      ensures r.Err? ==> r.error == ExceededBufferLimit || WriteFailure(r.error)
    {
      hide NewFiles, SizesOf, Total, BlobIndex.Bounded, BlobIndex.Full, BlobIndex.Trim, Fresh, AddedPacks,
           GreedyBatches, Concat, QueueOk, FirstsQueued, HashSet, HashesIn, NotKnown, TotalSize, BlobIndex.AgreesWith,
           Disk.Valid, Manager.IdsUsable, SpareOf, BelowThresholds;
      NothingQueued();
      failure, ids := NoFailure, [];
      NothingSized(disk.written, packfilesSize);
      var measured := MeasureQueue();
      if measured.Going? {
        NotKnownNothing(KnownSet());
        WantedIsUnknown(blobs, KnownSet());
        UnknownIsFresh(blobs, KnownSet());
        var written; ghost var batches;
        written, ids, batches, failure := WritePackfiles(true);
        PacksChanged(old(disk.archive.packs), disk.archive.packs, ids, batches);
        match written {
          case Ok(total) => return Ok(Some(total)), failure, ids;
          case Err(e) => return Err(e), failure, ids;
        }
      }
      return Ok(None), failure, ids;
    }

    ghost predicate WriteDesired()
      reads this, index
    {
      TotalSize(NotKnown(blobs, KnownSet())) >= PACKFILE_TARGET_SIZE ||
      |NotKnown(blobs, KnownSet())| >= PACKFILE_MAX_BLOBS
    }

    /** Puts a sealed blob at the end of the queue. Between the duplicate check and this another call
        may have queued the same hash; nothing here depends on the check. */
    method Enqueue(blob: Blob, nonce: Nonce)
      requires Valid()
      requires |blob.data| <= BLOB_MAX && blob in disk.offered
      modifies this`blobs, this`dirty, disk`archive, disk`history
      ensures Valid()
      ensures blobs == old(blobs) + [EncryptBlob(disk.p, blob, nonce)] && dirty
      ensures Tracked() == old(Tracked()) + {blob.hash} && KnownSet() == old(KnownSet())
      ensures old(disk.history) <= disk.history
      ensures disk.archive == if blob.hash in old(Tracked()) then old(disk.archive)
                              else old(disk.archive).(first := old(disk.archive.first)[blob.hash := EncryptBlob(disk.p,
                                  blob, nonce)])
    {
      hide QueueOk, HashSet, HashesIn, FirstsQueued, BlobIndex.AgreesWith, Disk.Valid, Lawful;
      index.ValidFacts(blob.hash);
      QueueAdd(disk.p, blobs, disk.offered, blob, nonce);
      ghost var sealed := EncryptBlob(disk.p, blob, nonce);
      FirstsEnter(blobs, KnownSet(), disk.archive.first, sealed);
      ghost var a := disk.archive;
      if blob.hash !in Tracked() {
        index.AgreesWithEntered(a, sealed);
        disk.Enter(sealed);
      }
      blobs := blobs + [EncryptBlob(disk.p, blob, nonce)];
      dirty := true;
    }

    /** Seals a blob under a fresh nonce and queues it. */
    method SealAndEnqueue(blob: Blob)
      requires Valid() && Lawful(disk.p) && randomNonces != []
      requires |blob.data| <= BLOB_MAX && blob in disk.offered
      modifies this`blobs, this`dirty, this`randomNonces, disk`archive, disk`history
      ensures Valid()
      ensures Tracked() == old(Tracked()) + {blob.hash} && KnownSet() == old(KnownSet())
      ensures old(disk.history) <= disk.history
      ensures disk.archive.packs == old(disk.archive.packs) && disk.archive.index == old(disk.archive.index)
      ensures (index.Bounded() <==> old(index.Bounded())) && (index.Trim() <==> old(index.Trim()))
      ensures forall h :: h in old(disk.archive.first) && (h != blob.hash || h in old(Tracked())) ==>
                h in disk.archive.first && disk.archive.first[h] == old(disk.archive.first)[h]
      ensures blob.hash !in old(Tracked()) ==>
                blob.hash in disk.archive.first && Plain(disk.p, disk.archive.first[blob.hash]) == Ok(blob)
      ensures old(disk.Complete()) ==> disk.Complete()
      ensures randomNonces == old(randomNonces)[1..]
      ensures |blobs| == |old(blobs)| + 1 && blobs[..|old(blobs)|] == old(blobs)
      ensures Plain(disk.p, blobs[|old(blobs)|]) == Ok(blob) && blobs[|old(blobs)|].nonce == old(randomNonces)[0]
      ensures Spare() >= old(Spare()) - 1
    {
      hide QueueOk, HashSet, HashesIn, FirstsQueued, Lawful, Plain, EncryptBlob, SpareOf, BlobIndex.AgreesWith,
           Disk.Valid;
      SpareAfterCall(randomIds, disk.packs.Keys, |blobs|, |randomNonces|, index.lastFileNum);
      var nonce := randomNonces[0];
      DecryptInvertsEncrypt(disk.p, blob, nonce);
      randomNonces := randomNonces[1..];
      SealedUnder(disk.p, blob, nonce);
      Enqueue(blob, nonce);
    }

    /** Records that a blob was handed to add_blob. */
    ghost method OfferBlob(blob: Blob)
      requires Valid()
      modifies disk`offered
      ensures Valid() && disk.offered == old(disk.offered) + {blob}
      ensures Lawful(disk.p) && SortedByHash(index.items) && (index.Known(blob.hash) <==> blob.hash in KnownSet())
    {
      hide QueueOk, HashSet, HashesIn, FirstsQueued, Lawful, BlobIndex.AgreesWith, Disk.Valid;
      index.ValidFacts(blob.hash);
      QueueOkMonotone(disk.p, blobs, disk.offered, disk.offered + {blob});
      disk.Offer(blob);
    }

    lemma {:induction false} KnownIsTracked()
      ensures KnownSet() <= Tracked()
    {
    }

    /** First section of add_blob: refuses a blob that is too large, and is done with one that is known. */
    method CheckBlob(blob: Blob) returns (progress: AddProgress)
      requires Valid()
      modifies disk`packs, disk`deletions, disk`offered
      ensures Valid() && disk.offered == old(disk.offered) + {blob}
      ensures progress == if |blob.data| > BLOB_MAX then Replied(Err(BlobTooLarge))
                          else if blob.hash in KnownSet() then Replied(Ok(None)) else Going(Queueing)
      ensures Spare() >= old(Spare())
      ensures old(disk.Complete()) ==> disk.Complete()
    {
      hide QueueOk, HashSet, HashesIn, FirstsQueued, Lawful, SortedByHash, BlobIndex.Known, Manager.Valid, SpareOf,
           Manager.KnownSet, Disk.Complete;
      LetSenderDelete();
      OfferBlob(blob);
      if |blob.data| > BLOB_MAX {
        return Replied(Err(BlobTooLarge));
      }
      var duplicate := index.IsBlobDuplicate(blob.hash);
      if duplicate {
        return Replied(Ok(None));
      }
      return Going(Queueing);
    }

    /** Second section of add_blob: seals the blob and queues it. */
    method QueueBlob(blob: Blob) returns (progress: AddProgress)
      requires Valid() && |blob.data| <= BLOB_MAX
      modifies this`blobs, this`dirty, this`randomNonces
      modifies disk`packs, disk`deletions, disk`offered, disk`archive, disk`history
      ensures Valid() && disk.offered == old(disk.offered) + {blob}
      ensures progress == if old(randomNonces) == [] then Replied(Err(GetrandomError)) else Going(Measuring)
      ensures Tracked() == if progress.Going? then old(Tracked()) + {blob.hash} else old(Tracked())
      ensures progress.Replied? ==> randomNonces == [] && blobs == old(blobs)
      ensures progress.Going? ==>
                randomNonces == old(randomNonces)[1..] && |blobs| == |old(blobs)| + 1 &&
                blobs[..|old(blobs)|] == old(blobs) && Plain(disk.p, blobs[|old(blobs)|]) == Ok(blob) &&
                blobs[|old(blobs)|].nonce == old(randomNonces)[0]
      ensures KnownSet() == old(KnownSet())
      ensures old(disk.history) <= disk.history
      ensures disk.archive.packs == old(disk.archive.packs) && disk.archive.index == old(disk.archive.index)
      ensures (index.Bounded() <==> old(index.Bounded())) && (index.Trim() <==> old(index.Trim()))
      ensures forall h :: h in old(disk.archive.first) && (h != blob.hash || h in old(Tracked())) ==>
                h in disk.archive.first && disk.archive.first[h] == old(disk.archive.first)[h]
      ensures progress.Going? && blob.hash !in old(Tracked()) ==>
                blob.hash in disk.archive.first && Plain(disk.p, disk.archive.first[blob.hash]) == Ok(blob)
      ensures old(disk.Complete()) ==> disk.Complete()
      ensures Spare() >= old(Spare()) - 1 && (old(Spare()) >= 1 ==> progress.Going?)
    {
      hide QueueOk, HashSet, HashesIn, FirstsQueued, Lawful, Plain, SpareOf, SortedByHash, BlobIndex.Known,
           Manager.Valid, Disk.Complete, BlobIndex.Bounded, BlobIndex.Full, BlobIndex.Trim;
      LetSenderDelete();
      OfferBlob(blob);
      if randomNonces == [] {
        NoneToSpare(randomIds, disk.packs.Keys, |blobs|, index.lastFileNum);
        return Replied(Err(GetrandomError));
      }
      SealAndEnqueue(blob);
      return Going(Measuring);
    }

    /** Queues a blob unless its hash is known already, and writes packfiles when the queue is large.
        Whenever the caller may go on, the hash is tracked and nothing queued before was lost. */
    method AddBlob(blob: Blob)
        returns (r: Result<Option<nat>, PackfileError>, ghost failure: Failure, ghost ids: seq<PackfileId>)
      requires Valid()
      modifies this, index, disk
      ensures Valid()
      ensures old(disk.Complete()) ==> disk.Complete()
      ensures old(disk.history) <= disk.history
      ensures disk.offered == old(disk.offered) + {blob}
      ensures old(Tracked()) <= Tracked() <= old(Tracked()) + {blob.hash}
      ensures r == Err(BlobTooLarge) <==> |blob.data| > BLOB_MAX
      ensures GoesOn(r) || !failure.NoFailure? ==> blob.hash in Tracked()
      ensures !failure.NoFailure? <==> r.Err? && WriteFailure(r.error) && |randomNonces| < |old(randomNonces)|
      ensures FailureOk(failure) &&
              (r.Err? && (r.error != GetrandomError || old(randomNonces) != []) ==> Reports(failure, r.error))
      ensures r == Ok(None) ==> KnownSet() == old(KnownSet())
      ensures index.unsaved == old(index.unsaved) + HashesIn(Lost(failure))
      ensures failure.IndexUnwritten? ==> failure.batch != [] && disk.archive.packs != old(disk.archive.packs)
      ensures index.Bounded() <==>
                old(index.Bounded()) && !(old(index.Full()) && disk.archive.packs != old(disk.archive.packs))
      ensures index.Full() <==>
                if disk.archive.packs != old(disk.archive.packs) then failure.IndexUnwritten? else old(index.Full())
      ensures old(disk.Reliable()) ==> disk.Reliable()
      ensures old(disk.Reliable() && index.Trim()) ==> index.Trim()
      ensures NewFiles(old(disk.written), disk.written, ids)
      ensures failure.NoFailure? ==> packfilesSize == old(packfilesSize) + Total(SizesOf(disk.written, ids))
      ensures GoesOn(r) ==>
                (r == Err(ExceededBufferLimit) <==> OverLimit(old(packfilesSize), SizesOf(disk.written, ids)))
      ensures Spare() >= old(Spare()) - 1
      ensures old(Spare()) >= 1 ==> GoesOn(r) || r == Err(BlobTooLarge)
      ensures forall h :: h in old(disk.archive.first) && (h != blob.hash || h in old(Tracked())) ==>
                h in disk.archive.first && disk.archive.first[h] == old(disk.archive.first)[h]
      ensures old(KnownSet()) <= KnownSet() && HashesIn(Lost(failure)) <= Tracked() - old(KnownSet())
      ensures old(randomIds) == [] ==> randomIds == [] && index.lastFileNum == old(index.lastFileNum)
      ensures old(randomIds) == [] ==> r == Ok(None) || r == Err(GetrandomError) || r == Err(BlobTooLarge)
      ensures GoesOn(r) && blob.hash !in old(Tracked()) ==>
                blob.hash in disk.archive.first && Plain(disk.p, disk.archive.first[blob.hash]) == Ok(blob)
      ensures blob.hash in old(KnownSet()) && |blob.data| <= BLOB_MAX ==>
                r == Ok(None) && disk.archive == old(disk.archive)
    {
      hide FailureOk, Lost, Manager.KnownSet, NewFiles, SizesOf, Total, OverLimit, BlobIndex.Bounded, BlobIndex.Full,
           BlobIndex.Trim, HashSet, HashesIn, NotKnown, TotalSize, Lawful, Plain, Manager.Valid, Manager.Spare,
           Disk.Complete;
      NothingQueued();
      NothingFailed();
      failure, ids := NoFailure, [];
      NothingSized(disk.written, packfilesSize);
      var checked := CheckBlob(blob);
      if checked.Replied? {
        return checked.reply, failure, ids;
      }
      var queued := QueueBlob(blob);
      if queued.Replied? {
        return queued.reply, failure, ids;
      }
      r, failure, ids := TriggerWriteIfDesired();
    }

    /** Writes out the pending index entries, once the queue is empty. */
    method FlushIndex() returns (r: Result<(), PackfileError>)
      requires Valid() && blobs == []
      modifies this`dirty, index`itemsBuf, index`lastFileNum, index`dirty
      modifies disk`indexFiles, disk`faults, disk`archive, disk`order, disk`history
      ensures Valid()
      ensures old(disk.Complete()) ==> disk.Complete()
      ensures old(disk.history) <= disk.history
      ensures disk.archive.first == old(disk.archive.first)
      ensures r == if old(index.lastFileNum) == U32_MAX then Err(IndexCounterOverflow)
                   else if old(disk.WriteFails()) then Err(IoError) else Ok(())
      ensures index.lastFileNum == if r.Ok? then old(index.lastFileNum) + 1 else old(index.lastFileNum)
      ensures r.Ok? ==> !dirty && index.itemsBuf == []
      ensures r.Err? ==> index.itemsBuf == old(index.itemsBuf) && disk.archive == old(disk.archive)
      ensures r.Ok? ==>
                Tracked() == HashSet(Flat(disk.archive)) + index.unsaved && HashSet(Flat(disk.archive)) !! index.unsaved
      ensures Tracked() == old(Tracked()) && KnownSet() == old(KnownSet())
      ensures Spare() >= old(Spare()) - 1 && (old(Spare()) >= 1 ==> r.Ok?)
      ensures index.Bounded() <==> old(index.Bounded())
      ensures index.Full() <==> r.Err? && old(index.Full())
      ensures disk.archive.packs == old(disk.archive.packs)
      ensures old(disk.Reliable()) ==> disk.Reliable()
      ensures old(index.Trim()) ==> index.Trim()
    {
      hide BlobIndex.Bounded, BlobIndex.Full, BlobIndex.Trim, QueueOk, HashSet, HashesIn, FirstsQueued,
           BlobIndex.AgreesWith, Disk.Valid, Flat, SpareOf;
      NothingQueued();
      SpareAfterCall(randomIds, disk.packs.Keys, |blobs|, |randomNonces|, index.lastFileNum);
      r := index.Flush();
      if r.Ok? {
        dirty := false;
        index.FlushedFacts();
      }
    }

    /** Something queued is fresh just when not all that is tracked is known. */
    lemma {:induction false} FreshIfUnknown()
      ensures Tracked() == KnownSet() <==> Fresh(blobs, KnownSet()) == []
      ensures HashesIn(blobs) <= Tracked()
    {
      hide HashSet, HashesIn, Fresh;
      UnknownIsFresh(blobs, KnownSet());
      FreshHashes(blobs, KnownSet());
      SomeHash(Fresh(blobs, KnownSet()));
      NothingQueued();
    }

    /** Writes everything out. On success a hash tracked before is in the index files on disk, unless an
        earlier call lost it. */
    method Flush() returns (r: Result<(), PackfileError>, ghost failure: Failure)
      requires Valid()
      modifies this, index, disk
      ensures Valid()
      ensures old(disk.Complete()) ==> disk.Complete()
      ensures old(disk.history) <= disk.history
      ensures disk.offered == old(disk.offered) && disk.archive.first == old(disk.archive.first)
      ensures Tracked() == old(Tracked())
      ensures failure == NoFailure <==> r.Ok?
      ensures FailureOk(failure) && (r.Err? ==> Reports(failure, r.error) && WriteFailure(r.error))
      ensures index.unsaved == old(index.unsaved) + HashesIn(Lost(failure))
      ensures r.Ok? ==> !dirty && blobs == [] && index.itemsBuf == []
      ensures r.Ok? ==>
                Tracked() == HashSet(Flat(disk.archive)) + index.unsaved && HashSet(Flat(disk.archive)) !! index.unsaved
      ensures Spare() >= old(Spare()) - 1 && (old(Spare()) >= 1 ==> r.Ok?)
      ensures old(KnownSet()) <= KnownSet() && HashesIn(Lost(failure)) <= old(Tracked()) - old(KnownSet())
      ensures old(Tracked()) == old(KnownSet()) && old(index.lastFileNum) < U32_MAX ==>
                r == (if old(disk.WriteFails()) then Err(IoError) else Ok(())) && Lost(failure) == []
      ensures old(randomIds) == [] && old(Tracked()) != old(KnownSet()) ==> r == Err(GetrandomError)
      ensures old(randomIds) == [] ==> randomIds == [] && index.lastFileNum <= old(index.lastFileNum) + 1
      ensures failure.IndexUnwritten? && failure.batch != [] ==> disk.archive.packs != old(disk.archive.packs)
      ensures index.Bounded() <==>
                old(index.Bounded()) && !(old(index.Full()) && disk.archive.packs != old(disk.archive.packs))
      ensures index.Full() <==>
                r.Err? &&
                if disk.archive.packs != old(disk.archive.packs) then failure.IndexUnwritten? && failure.batch != []
                else old(index.Full())
      ensures old(disk.Reliable()) ==> disk.Reliable()
      ensures old(disk.Reliable() && index.Trim()) ==> index.Trim()
    {
      hide NewFiles, SizesOf, Total, OverLimit, BlobIndex.Bounded, BlobIndex.Full, BlobIndex.Trim, QueueOk, HashSet,
           HashesIn, FirstsQueued, Fresh, AddedPacks, GreedyBatches, Concat, Flat, BelowThresholds, Batch, SpareOf,
           BlobIndex.AgreesWith, Disk.Valid, Disk.Complete, Manager.Valid, Manager.Spare, Manager.Tracked,
           Manager.KnownSet;
      NothingQueued();
      FreshIfUnknown();
      var written; ghost var ids, batches;
      written, ids, batches, failure := WritePackfiles(false);
      PacksChanged(old(disk.archive.packs), disk.archive.packs, ids, batches);
      if written.Err? {
        return Err(written.error), failure;
      }
      r := FlushIndex();
      if r.Err? {
        failure := IndexUnwritten([], 0);
      }
    }

    /** Reads a blob back through the index. */
    method GetBlob(hash: Hash) returns (r: Result<Option<Blob>, PackfileError>)
      requires SortedByHash(index.items)
      ensures UniqueHashes(multiset(index.items)) ==> r == Get(disk.p, disk.packs, index.items, hash)
      ensures r == Ok(None) <==> forall e :: e in index.items ==> e.0 != hash
    {
      hide UniqueHashes, OpenHeader, LeValue, SortedByHash, DecryptBlob;
      var found := index.FindPackfile(hash);
      if found.None? {
        return Ok(None);
      }
      var id := found.value;
      if id !in disk.packs {
        return Err(IoError);
      }
      var file := disk.packs[id];
      if |file| > PACKFILE_MAX_SIZE {
        return Err(PackfileTooLarge);
      }
      var position := 0;
      if position + 8 > |file| {
        return Err(IoError);
      }
      var headerSize := LeValue(file[position..position + 8]);
      position := position + 8;
      if headerSize > |file| || headerSize == 0 {
        return Err(InvalidHeaderSize);
      }
      if position + headerSize > |file| {
        return Err(IoError);
      }
      var entries := OpenHeader(disk.p, id, file[position..position + headerSize]);
      position := position + headerSize;
      if entries.Err? {
        return Err(entries.error);
      }
      var header := entries.value;
      assert ReadHeader(disk.p, id, file) == Ok((position, header));
      var i := 0;
      while i < |header|
        invariant 0 <= i <= |header|
        invariant FirstWithHash(header, hash) == FirstWithHash(header[i..], hash)
      {
        if header[i].hash == hash {
          position := SeekFrom(position, header[i].offset);
          if position < 0 || position + NONCE_SIZE > |file| {
            return Err(IoError);
          }
          var nonce: Nonce := file[position..position + NONCE_SIZE];
          position := position + NONCE_SIZE;
          if position + header[i].length > |file| {
            return Err(IoError);
          }
          var data := file[position..position + header[i].length];
          var blob := DecryptBlob(disk.p, header[i].hash, header[i].kind, nonce, data);
          match blob {
            case Err(e) => return Err(e);
            case Ok(b) => return Ok(Some(b));
          }
        }
        i := i + 1;
      }
      return Err(IndexHeaderMismatch);
    }

    /** Opens a manager on a folder, loading its index. */
    static method Open(disk: Disk, packfilesSize: nat, ids: seq<PackfileId>, nonces: seq<Nonce>)
        returns (r: Result<Manager, PackfileError>)
      ensures r.Ok? ==> fresh(r.value) && fresh(r.value.index) && r.value.disk == disk && r.value.index.disk == disk
      ensures r.Ok? ==> SortedByHash(r.value.index.items) && r.value.blobs == [] && r.value.index.unsaved == {}
      ensures r.Ok? ==> r.value.index.itemsBuf == []
      ensures disk.Valid() ==> r.Ok? && multiset(r.value.index.items) == multiset(Flat(disk.archive))
      ensures disk.Valid() ==> UniqueHashes(multiset(r.value.index.items))
      ensures disk.Valid() ==> r.value.Tracked() == r.value.KnownSet() == HashSet(Flat(disk.archive))
      ensures disk.Valid() ==> r.value.index.lastFileNum == |disk.archive.index|
      ensures r.Ok? ==> r.value.randomIds == ids && r.value.randomNonces == nonces
      ensures disk.Valid() && NoDuplicates(ids) &&
              (forall id :: id in ids && id in disk.archive.packs ==> id in disk.packs) ==>
                r.value.Valid()
    {
      hide Disk.Valid, EntriesOk, UniqueHashes;
      var index := BlobIndex.Load(disk);
      if index.Err? {
        return Err(index.error);
      }
      var manager := new Manager(disk, index.value, packfilesSize, ids, nonces);
      if disk.Valid() {
        index.value.FlushedFacts();
        NothingQueued();
        index.value.NumberFacts();
      }
      return Ok(manager);
    }
  }

  /** The result of one read-back, for every hash, once a folder with all its packfiles is opened: the blob
      first entered under the hash, and none of get_blob's guards. */
  lemma {:induction false} ReopenedReadsBack(disk: Disk, items: seq<Entry>, hash: Hash)
    requires disk.Valid() && disk.Complete()
    requires multiset(items) == multiset(Flat(disk.archive))
    ensures hash in HashSet(Flat(disk.archive)) ==>
              hash in disk.archive.first && Plain(disk.p, disk.archive.first[hash]).Ok? &&
              Plain(disk.p, disk.archive.first[hash]).value.hash == hash &&
              Plain(disk.p, disk.archive.first[hash]).value in disk.offered &&
              Get(disk.p, disk.packs, items, hash) == Ok(Some(Plain(disk.p, disk.archive.first[hash]).value))
    ensures hash !in HashSet(Flat(disk.archive)) ==> Get(disk.p, disk.packs, items, hash) == Ok(None)
  {
    hide ArchiveOk, IndexImage, Get, Serialized, Plain;
    IndexedBlobsReadBack(disk.p, disk.archive, disk.offered, disk.packs, items, hash);
  }
}
