/** What the backup folder holds, as values: the batches behind the packfiles and the entries behind
    the numbered index files, with the invariant that every state of the folder satisfies. */
module Archives {
  import opened Wrappers
  import opened ByteStrings
  import opened Primitives
  import opened Bincode
  import opened PackfileFormat

  /** So many pending entries are written to a file; more can be pending only after such a write has failed. */
  const MAX_FILE_ENTRIES: nat := 50_000

  /** ASCII for "index", the constant the index key is derived from. */
  const INDEX_INFO: Bytes := [105, 110, 100, 101, 120]

  type Entry = (Hash, PackfileId)

  // ----- Index files -----

  function EncodeEntry(e: Entry): Bytes { e.0 + e.1 }

  function DecodeEntry(b0: Bytes): Parsed<Entry> {
    var (hash, b1) :- TakeBytes(b0, 32);
    var (id, b2) :- TakeBytes(b1, 12);
    Parsed((hash, id), b2)
  }

  lemma {:induction false} EntryCodecInverts()
    ensures Inverts(EncodeEntry, DecodeEntry)
  {
    forall e: Entry, rest: Bytes
      ensures DecodeEntry(EncodeEntry(e) + rest) == Parsed(e, rest)
    {
      Assoc(e.0, e.1, rest);
      BytesRoundTrip(e.0, e.1 + rest);
      BytesRoundTrip(e.1, rest);
    }
  }

  /** The file number, little-endian, padded with zeros to a nonce. */
  function CounterToNonce(fileNumber: u32): Nonce {
    LeBytes(fileNumber, 4) + seq(8, _ => 0)
  }

  /** The first four bytes hold the number, the rest is zero. */
  lemma {:induction false} NonceHoldsNumber(n: u32)
    ensures LeValue(CounterToNonce(n)[..4]) == n && forall i :: 4 <= i < 12 ==> CounterToNonce(n)[i] == 0
  {
    Widths();
    LeRoundTrip(n, 4);
    assert CounterToNonce(n)[..4] == LeBytes(n, 4);
  }

  /** Different index files are sealed under different nonces. */
  lemma {:induction false} NoncesAreDistinct(m: u32, n: u32)
    requires CounterToNonce(m) == CounterToNonce(n)
    ensures m == n
  {
    NonceHoldsNumber(m);
    NonceHoldsNumber(n);
  }

  function IndexFile(p: Primitives, number: u32, entries: seq<Entry>): Bytes
    requires |entries| < U64_LIMIT
  {
    p.seal(p.deriveKey(INDEX_INFO), CounterToNonce(number), SerializeVec(entries, EncodeEntry))
  }

  function OpenIndexFile(p: Primitives, number: u32, file: Bytes): Result<seq<Entry>, PackfileError> {
    match p.open(p.deriveKey(INDEX_INFO), CounterToNonce(number), file)
    case None => Err(CryptoError)
    case Some(encoded) =>
      match DeserializeVec(encoded, DecodeEntry)
      case None => Err(SerializationError)
      case Some(entries) => Ok(entries)
  }

  lemma {:induction false} IndexFileOpens(p: Primitives, number: u32, entries: seq<Entry>)
    requires Lawful(p)
    requires |entries| < U64_LIMIT
    ensures OpenIndexFile(p, number, IndexFile(p, number, entries)) == Ok(entries)
  {
    EntryCodecInverts();
    VecRoundTrip(entries, EncodeEntry, DecodeEntry);
    var encoded := SerializeVec(entries, EncodeEntry);
    assert p.open(p.deriveKey(INDEX_INFO), CounterToNonce(number), IndexFile(p, number, entries)) == Some(encoded);
  }

  // ----- Order of hashes and lookup by hash -----

  predicate LexLess(a: Bytes, b: Bytes)
    requires |a| == |b|
  {
    a != [] && (a[0] < b[0] || (a[0] == b[0] && LexLess(a[1..], b[1..])))
  }

  lemma {:induction false} LexTotal(a: Bytes, b: Bytes)
    requires |a| == |b|
    ensures LexLess(a, b) || LexLess(b, a) || a == b
    ensures !(LexLess(a, b) && LexLess(b, a))
    ensures a == b ==> !LexLess(a, b)
  {
    if a != [] {
      LexTotal(a[1..], b[1..]);
      assert a == [a[0]] + a[1..] && b == [b[0]] + b[1..];
    }
  }

  lemma {:induction false} LexTransitive(a: Bytes, b: Bytes, c: Bytes)
    requires |a| == |b| == |c|
    requires !LexLess(b, a) && LexLess(b, c)
    ensures LexLess(a, c)
  {
    LexTotal(a, b);
    if a != [] && a[0] == b[0] == c[0] {
      LexTransitive(a[1..], b[1..], c[1..]);
    }
  }

  ghost predicate SortedByHash(items: seq<Entry>) {
    forall i, j :: 0 <= i < j < |items| ==> !LexLess(items[j].0, items[i].0)
  }

  ghost function HashSet(entries: seq<Entry>): set<Hash> {
    set e | e in entries :: e.0
  }

  /** No hash is mapped twice, in whatever order the entries stand. */
  ghost predicate UniqueHashes(bag: multiset<Entry>) {
    (forall e :: e in bag ==> bag[e] == 1) &&
    forall e, e' :: e in bag && e' in bag && e.0 == e'.0 ==> e == e'
  }

  /** No index file has more entries than a full buffer. */
  ghost predicate BoundedFiles(index: seq<seq<Entry>>) {
    forall n :: 0 <= n < |index| ==> |index[n]| <= MAX_FILE_ENTRIES
  }

  lemma {:induction false} BoundedAdd(index: seq<seq<Entry>>, entries: seq<Entry>)
    ensures BoundedFiles(index + [entries]) <==> BoundedFiles(index) && |entries| <= MAX_FILE_ENTRIES
  {
    if BoundedFiles(index + [entries]) {
      assert (index + [entries])[|index|] == entries;
      forall n | 0 <= n < |index|
        ensures |index[n]| <= MAX_FILE_ENTRIES
      {
        assert (index + [entries])[n] == index[n];
      }
    }
  }

  lemma {:induction false} UniqueHashesAdd(entries: seq<Entry>, e: Entry)
    requires UniqueHashes(multiset(entries))
    requires e.0 !in HashSet(entries)
    ensures UniqueHashes(multiset(entries + [e]))
  {
    assert multiset(entries + [e]) == multiset(entries) + multiset{e};
    assert e !in entries;
    forall e' | e' in multiset(entries)
      ensures e'.0 != e.0
    {
      assert e' in entries;
    }
  }

  /** The packfile that a linear search finds for the hash. */
  function Locate(items: seq<Entry>, hash: Hash): (r: Option<PackfileId>)
    ensures r.Some? ==> (hash, r.value) in items
    ensures r.None? ==> hash !in HashSet(items)
  {
    if items == [] then None
    else if items[0].0 == hash then Some(items[0].1)
    else Locate(items[1..], hash)
  }

  // ----- The archive -----

  /** packs: every packfile ever written. index: the entries of index file n at position n - 1. first: the
      blob first entered under each hash since no session knew it. */
  datatype Archive = Archive(packs: map<PackfileId, seq<BlobEncrypted>>, index: seq<seq<Entry>>, first: map<Hash,
                             BlobEncrypted>)

  function Flat(a: Archive): seq<Entry> { Concat(a.index) }

  ghost predicate DistinctHashes(blobs: seq<BlobEncrypted>) {
    forall i, j :: 0 <= i < j < |blobs| ==> blobs[i].hash != blobs[j].hash
  }

  /** A packfile's batch: within the thresholds, no hash twice, and every blob one that was offered. */
  ghost predicate PackOk(p: Primitives, blobs: seq<BlobEncrypted>, offered: set<Blob>) {
    Batch(blobs) && DistinctHashes(blobs) &&
    forall b :: b in blobs ==> Plain(p, b).Ok? && Plain(p, b).value in offered
  }

  /** The entry names a written packfile that holds the blob first entered under the hash. */
  ghost predicate EntryOk(packs: map<PackfileId, seq<BlobEncrypted>>, first: map<Hash, BlobEncrypted>, e: Entry) {
    e.1 in packs && e.0 in first && first[e.0].hash == e.0 && first[e.0] in packs[e.1]
  }

  ghost predicate EntriesOk(packs: map<PackfileId, seq<BlobEncrypted>>, first: map<Hash, BlobEncrypted>,
                            entries: seq<Entry>)
  {
    UniqueHashes(multiset(entries)) && forall e :: e in entries ==> EntryOk(packs, first, e)
  }

  lemma {:induction false} EntriesOkAdd(packs: map<PackfileId, seq<BlobEncrypted>>, first: map<Hash, BlobEncrypted>,
                                        entries: seq<Entry>, e: Entry)
    requires EntriesOk(packs, first, entries)
    requires EntryOk(packs, first, e) && e.0 !in HashSet(entries)
    ensures EntriesOk(packs, first, entries + [e])
  {
    UniqueHashesAdd(entries, e);
  }

  lemma {:induction false} EntriesOkGrows(packs: map<PackfileId, seq<BlobEncrypted>>, first: map<Hash, BlobEncrypted>,
                                          entries: seq<Entry>, id: PackfileId, blobs: seq<BlobEncrypted>)
    requires EntriesOk(packs, first, entries)
    requires id !in packs
    ensures EntriesOk(packs[id := blobs], first, entries)
  {
    forall e | e in entries
      ensures EntryOk(packs[id := blobs], first, e)
    {
      assert EntryOk(packs, first, e);
    }
  }

  /** Entering a blob under a hash that is not indexed changes nothing for the entries. */
  lemma {:induction false} EntriesOkEnter(packs: map<PackfileId, seq<BlobEncrypted>>, first: map<Hash, BlobEncrypted>,
                                          entries: seq<Entry>, blob: BlobEncrypted)
    requires EntriesOk(packs, first, entries)
    requires blob.hash !in HashSet(entries)
    ensures EntriesOk(packs, first[blob.hash := blob], entries)
  {
    forall e | e in entries
      ensures EntryOk(packs, first[blob.hash := blob], e)
    {
      assert EntryOk(packs, first, e);
    }
  }

  ghost predicate PacksOk(p: Primitives, packs: map<PackfileId, seq<BlobEncrypted>>, offered: set<Blob>) {
    forall id :: id in packs ==> PackOk(p, packs[id], offered)
  }

  ghost predicate IndexOk(index: seq<seq<Entry>>) {
    |index| < U32_LIMIT && forall n :: 0 <= n < |index| ==> |index[n]| < U64_LIMIT
  }

  ghost predicate ArchiveOk(p: Primitives, a: Archive, offered: set<Blob>) {
    PacksOk(p, a.packs, offered) && IndexOk(a.index) && EntriesOk(a.packs, a.first, Flat(a))
  }

  lemma {:induction false} ArchiveOkMonotone(p: Primitives, a: Archive, offered: set<Blob>, more: set<Blob>)
    requires ArchiveOk(p, a, offered)
    requires offered <= more
    ensures ArchiveOk(p, a, more)
  {
  }

  lemma {:induction false} AddPackKeepsOk(p: Primitives, a: Archive, offered: set<Blob>, id: PackfileId,
                                          blobs: seq<BlobEncrypted>)
    requires ArchiveOk(p, a, offered)
    requires id !in a.packs
    requires PackOk(p, blobs, offered)
    ensures ArchiveOk(p, a.(packs := a.packs[id := blobs]), offered)
  {
    var packs' := a.packs[id := blobs];
    forall e | e in Flat(a)
      ensures EntryOk(packs', a.first, e)
    {
      assert EntryOk(a.packs, a.first, e);
    }
  }

  lemma {:induction false} AddIndexFileKeepsOk(p: Primitives, a: Archive, offered: set<Blob>, entries: seq<Entry>)
    requires ArchiveOk(p, a, offered)
    requires |entries| < U64_LIMIT && |a.index| + 1 < U32_LIMIT
    requires EntriesOk(a.packs, a.first, Flat(a) + entries)
    ensures ArchiveOk(p, a.(index := a.index + [entries]), offered)
  {
    ConcatSnoc(a.index, entries);
  }

  lemma {:induction false} EnterKeepsOk(p: Primitives, a: Archive, offered: set<Blob>, blob: BlobEncrypted)
    requires ArchiveOk(p, a, offered) && blob.hash !in HashSet(Flat(a))
    ensures ArchiveOk(p, a.(first := a.first[blob.hash := blob]), offered)
  {
    EntriesOkEnter(a.packs, a.first, Flat(a), blob);
  }

  // ----- What the invariant says of the files -----

  lemma {:induction false} EntryInConcat(parts: seq<seq<Entry>>, n: nat, i: nat)
    requires n < |parts| && i < |parts[n]|
    ensures multiset(Concat(parts))[parts[n][i]] >= 1
    ensures multiset(Concat(parts)) ==
            multiset(Concat(parts[..n])) + multiset(parts[n]) + multiset(Concat(parts[n + 1..]))
  {
    assert parts == parts[..n] + ([parts[n]] + parts[n + 1..]);
    ConcatAppend(parts[..n], [parts[n]] + parts[n + 1..]);
    assert ([parts[n]] + parts[n + 1..])[1..] == parts[n + 1..];
    assert parts[n][i] in parts[n];
  }

  lemma {:induction false} TwiceInSeq(s: seq<Entry>, i: nat, j: nat)
    requires i < j < |s| && s[i] == s[j]
    ensures multiset(s)[s[i]] >= 2
  {
    assert s == s[..j] + s[j..];
    assert s[..j][i] in multiset(s[..j]) && s[j..][0] in multiset(s[j..]);
  }

  lemma {:induction false} TwiceInParts(parts: seq<seq<Entry>>, m: nat, i: nat, n: nat, j: nat)
    requires m < n < |parts| && i < |parts[m]| && j < |parts[n]| && parts[m][i] == parts[n][j]
    ensures multiset(Concat(parts))[parts[m][i]] >= 2
  {
    EntryInConcat(parts, n, j);
    EntryInConcat(parts[..n], m, i);
    assert parts[n][j] in multiset(parts[n]);
  }

  /** In every state of the folder a hash has at most one place in the index files, and the packfile
      named there is one that was written and whose header lists the hash. */
  lemma {:induction false} IndexedOnce(p: Primitives, a: Archive, offered: set<Blob>, m: nat, i: nat, n: nat, j: nat)
    requires ArchiveOk(p, a, offered)
    requires m < |a.index| && i < |a.index[m]| && n < |a.index| && j < |a.index[n]|
    requires a.index[m][i].0 == a.index[n][j].0
    ensures m == n && i == j
    ensures a.index[m][i].1 in a.packs
    ensures var blobs := a.packs[a.index[m][i].1];
            |blobs| < U64_LIMIT && DataSize(blobs) < U64_LIMIT &&
            exists k :: 0 <= k < |blobs| && HeaderOf(blobs)[k].hash == a.index[m][i].0
  {
    EntryInConcat(a.index, m, i);
    EntryInConcat(a.index, n, j);
    var e := a.index[m][i];
    assert e in multiset(Flat(a)) && a.index[n][j] in multiset(Flat(a));
    assert e == a.index[n][j];
    if m < n {
      TwiceInParts(a.index, m, i, n, j);
    } else if n < m {
      TwiceInParts(a.index, n, j, m, i);
    } else if i != j {
      TwiceInSeq(a.index[m], if i < j then i else j, if i < j then j else i);
    }
    assert e in Flat(a);
    IndexedHeaderLists(p, a, offered, e);
  }

  lemma {:induction false} IndexedHeaderLists(p: Primitives, a: Archive, offered: set<Blob>, e: Entry)
    requires ArchiveOk(p, a, offered) && e in Flat(a)
    ensures e.1 in a.packs
    ensures var blobs := a.packs[e.1];
            |blobs| < U64_LIMIT && DataSize(blobs) < U64_LIMIT &&
            exists k :: 0 <= k < |blobs| && HeaderOf(blobs)[k].hash == e.0
  {
    hide Plain;
    assert EntryOk(a.packs, a.first, e);
    var blobs := a.packs[e.1];
    BatchSize(blobs);
    var k :| 0 <= k < |blobs| && blobs[k] == a.first[e.0];
    HeaderAt(blobs, k);
  }

  // ----- Reading -----

  /** What get_blob gives for a hash, from the packfiles at hand and the loaded index entries. */
  function Get(p: Primitives, packs: map<PackfileId, Bytes>, items: seq<Entry>,
               hash: Hash): Result<Option<Blob>, PackfileError>
  {
    match Locate(items, hash)
    case None => Ok(None)
    case Some(id) =>
      if id !in packs then Err(IoError)
      else
        match ReadBlob(p, id, packs[id], hash)
        case Err(e) => Err(e)
        case Ok(blob) => Ok(Some(blob))
  }

  lemma {:induction false} BatchReadsBack(p: Primitives, id: PackfileId, blobs: seq<BlobEncrypted>, offered: set<Blob>,
                                          blob: BlobEncrypted)
    requires Lawful(p)
    requires PackOk(p, blobs, offered) && blob in blobs
    ensures |blobs| < U64_LIMIT && DataSize(blobs) < U64_LIMIT
    ensures ReadBlob(p, id, Serialized(p, id, blobs), blob.hash) == Plain(p, blob)
    ensures Plain(p, blob).Ok? && Plain(p, blob).value.hash == blob.hash && Plain(p, blob).value in offered
  {
    var k :| 0 <= k < |blobs| && blobs[k] == blob;
    BlobReadsBack(p, id, blobs, k);
  }

  /** Every hash in the index reads back as the blob that was first entered under it, which is one that was
      offered; and no other hash is found, whenever every packfile the index names is at hand. */
  lemma {:induction false} IndexedBlobsReadBack(
      p: Primitives, a: Archive, offered: set<Blob>, packs: map<PackfileId, Bytes>, items: seq<Entry>, hash: Hash)
    requires Lawful(p)
    requires ArchiveOk(p, a, offered)
    requires multiset(items) == multiset(Flat(a))
    requires forall id :: id in a.packs ==>
               id in packs && |a.packs[id]| < U64_LIMIT && DataSize(a.packs[id]) < U64_LIMIT &&
               packs[id] == Serialized(p, id, a.packs[id])
    ensures hash in HashSet(Flat(a)) ==>
              hash in a.first && Plain(p, a.first[hash]).Ok? && Plain(p, a.first[hash]).value.hash == hash &&
              Plain(p, a.first[hash]).value in offered &&
              Get(p, packs, items, hash) == Ok(Some(Plain(p, a.first[hash]).value))
    ensures hash !in HashSet(Flat(a)) ==> Get(p, packs, items, hash) == Ok(None)
  {
    match Locate(items, hash)
    case None =>
      forall e | e in Flat(a)
        ensures e.0 != hash
      {
        assert e in multiset(items);
        assert e in items;
      }
    case Some(id) =>
      assert (hash, id) in multiset(items);
      assert (hash, id) in Flat(a);
      assert EntryOk(a.packs, a.first, (hash, id));
      BatchReadsBack(p, id, a.packs[id], offered, a.first[hash]);
  }
}
