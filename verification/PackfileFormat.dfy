/** Byte layout of a packfile: header length (8 bytes), sealed header, then for every blob its nonce
    and its sealed data. */
module PackfileFormat {
  import opened Wrappers
  import opened ByteStrings
  import opened Primitives
  import opened Bincode

  const PACKFILE_TARGET_SIZE: nat := 3_145_728 // 3 MiB
  const PACKFILE_MAX_SIZE: nat := 16_777_216 // 16 MiB
  const PACKFILE_MAX_BLOBS: nat := 100_000

  /** ASCII for "header", the constant the header key is derived from. */
  const HEADER_INFO: Bytes := [104, 101, 97, 100, 101, 114]

  datatype BlobKind = FileChunk | TreeBlob
  datatype CompressionKind = Uncompressed | Zstd
  datatype Blob = Blob(hash: Hash, kind: BlobKind, data: Bytes)
  datatype BlobEncrypted = BlobEncrypted(hash: Hash, kind: BlobKind, data: Bytes, nonce: Nonce)
  datatype HeaderBlob = HeaderBlob(hash: Hash, kind: BlobKind, compression: CompressionKind, length: u64, offset: u64)

  datatype PackfileError =
    | ExceededBufferLimit
    | InvalidHeaderSize
    | PackfileTooLarge
    | IndexHeaderMismatch
    | BlobTooLarge
    | DuplicateBlob
    | IoError
    | CryptoError
    | SerializationError
    | GetrandomError
    | IndexCounterOverflow

  // ----- Sealing and opening one blob -----

  function EncryptBlob(p: Primitives, blob: Blob, nonce: Nonce): BlobEncrypted {
    BlobEncrypted(blob.hash, blob.kind, p.seal(p.deriveKey(blob.hash), nonce, p.compress(blob.data)), nonce)
  }

  function DecryptBlob(p: Primitives, hash: Hash, kind: BlobKind, nonce: Nonce,
                       data: Bytes): Result<Blob, PackfileError>
  {
    match p.open(p.deriveKey(hash), nonce, data)
    case None => Err(CryptoError)
    case Some(compressed) =>
      match p.decompress(compressed, BLOB_MAX)
      case None => Err(IoError)
      case Some(plain) => Ok(Blob(hash, kind, plain))
  }

  /** The blob a sealed blob gives back. */
  function Plain(p: Primitives, b: BlobEncrypted): Result<Blob, PackfileError> {
    DecryptBlob(p, b.hash, b.kind, b.nonce, b.data)
  }

  lemma {:induction false} DecryptInvertsEncrypt(p: Primitives, blob: Blob, nonce: Nonce)
    requires Lawful(p)
    requires |blob.data| <= BLOB_MAX
    ensures Plain(p, EncryptBlob(p, blob, nonce)) == Ok(blob)
    ensures |EncryptBlob(p, blob, nonce).data| <= SEALED_MAX
  {
    var c := p.compress(blob.data);
    assert p.open(p.deriveKey(blob.hash), nonce, p.seal(p.deriveKey(blob.hash), nonce, c)) == Some(c);
  }

  // ----- Header entries -----

  function KindTag(k: BlobKind): byte { if k.FileChunk? then 0 else 1 }
  function CompressionTag(c: CompressionKind): byte { if c.Uncompressed? then 0 else 1 }

  function EncodeTags(e: HeaderBlob): Bytes {
    EncodeVarint(KindTag(e.kind)) + EncodeVarint(CompressionTag(e.compression))
  }

  function EncodeSpan(e: HeaderBlob): Bytes {
    EncodeVarint(e.length) + EncodeVarint(e.offset)
  }

  function EncodeHeaderBlob(e: HeaderBlob): Bytes {
    e.hash + (EncodeTags(e) + EncodeSpan(e))
  }

  function DecodeHeaderBlob(b0: Bytes): Parsed<HeaderBlob> {
    var (hash, b1) :- TakeBytes(b0, 32);
    var (kind, b2) :- DecodeVarint(b1);
    var (compression, b3) :- DecodeVarint(b2);
    var (length, b4) :- DecodeVarint(b3);
    var (offset, b5) :- DecodeVarint(b4);
    if kind > 1 || compression > 1 then Malformed
    else
      var blobKind := if kind == 0 then FileChunk else TreeBlob;
      var compressionKind := if compression == 0 then Uncompressed else Zstd;
      Parsed(HeaderBlob(hash, blobKind, compressionKind, length, offset), b5)
  }

  lemma {:induction false} TwoVarintsRoundTrip(m: u64, n: u64, rest: Bytes)
    ensures DecodeVarint(EncodeVarint(m) + EncodeVarint(n) + rest) == Parsed(m, EncodeVarint(n) + rest)
    ensures DecodeVarint(EncodeVarint(n) + rest) == Parsed(n, rest)
  {
    Assoc(EncodeVarint(m), EncodeVarint(n), rest);
    VarintRoundTrip(m, EncodeVarint(n) + rest);
    VarintRoundTrip(n, rest);
  }

  lemma {:induction false} DecodeSteps(e: HeaderBlob, b0: Bytes, b1: Bytes, b2: Bytes, b3: Bytes, b4: Bytes, b5: Bytes)
    requires TakeBytes(b0, 32) == Parsed(e.hash, b1)
    requires DecodeVarint(b1) == Parsed(KindTag(e.kind), b2)
    requires DecodeVarint(b2) == Parsed(CompressionTag(e.compression), b3)
    requires DecodeVarint(b3) == Parsed(e.length, b4)
    requires DecodeVarint(b4) == Parsed(e.offset, b5)
    ensures DecodeHeaderBlob(b0) == Parsed(e, b5)
  {
  }

  lemma {:induction false} HeaderBlobRoundTrip(e: HeaderBlob, rest: Bytes)
    ensures DecodeHeaderBlob(EncodeHeaderBlob(e) + rest) == Parsed(e, rest)
  {
    var tags, span := EncodeTags(e), EncodeSpan(e);
    Assoc(e.hash, tags + span, rest);
    Assoc(tags, span, rest);
    BytesRoundTrip(e.hash, tags + (span + rest));
    TwoVarintsRoundTrip(KindTag(e.kind), CompressionTag(e.compression), span + rest);
    TwoVarintsRoundTrip(e.length, e.offset, rest);
    DecodeSteps(e, EncodeHeaderBlob(e) + rest, tags + (span + rest),
                EncodeVarint(CompressionTag(e.compression)) + (span + rest), span + rest,
                EncodeVarint(e.offset) + rest, rest);
  }

  lemma {:induction false} HeaderCodecInverts()
    ensures Inverts(EncodeHeaderBlob, DecodeHeaderBlob)
  {
    forall e: HeaderBlob, rest: Bytes
      ensures DecodeHeaderBlob(EncodeHeaderBlob(e) + rest) == Parsed(e, rest)
    {
      HeaderBlobRoundTrip(e, rest);
    }
  }

  // ----- Header and data of a batch -----

  /** Length of the data section: each blob takes its nonce and its data. */
  function DataSize(blobs: seq<BlobEncrypted>): nat {
    if blobs == [] then 0
    else DataSize(blobs[..|blobs| - 1]) + |blobs[|blobs| - 1].data| + NONCE_SIZE
  }

  function DataOf(blobs: seq<BlobEncrypted>): (d: Bytes)
    ensures |d| == DataSize(blobs)
  {
    if blobs == [] then []
    else DataOf(blobs[..|blobs| - 1]) + blobs[|blobs| - 1].nonce + blobs[|blobs| - 1].data
  }

  /** Each entry records where its blob starts: the size of everything before it. */
  function HeaderOf(blobs: seq<BlobEncrypted>): (h: seq<HeaderBlob>)
    requires DataSize(blobs) < U64_LIMIT
    ensures |h| == |blobs|
  {
    if blobs == [] then []
    else
      var n := |blobs| - 1;
      HeaderOf(blobs[..n]) + [HeaderBlob(blobs[n].hash, blobs[n].kind, Zstd, |blobs[n].data|, DataSize(blobs[..n]))]
  }

  lemma {:induction false} DataSizePrefix(blobs: seq<BlobEncrypted>, k: nat)
    requires k <= |blobs|
    ensures DataSize(blobs[..k]) <= DataSize(blobs)
    ensures DataOf(blobs[..k]) <= DataOf(blobs)
  {
    if k < |blobs| {
      DataSizePrefix(blobs[..|blobs| - 1], k);
      assert blobs[..|blobs| - 1][..k] == blobs[..k];
    } else {
      assert blobs[..k] == blobs;
    }
  }

  lemma {:induction false} HeaderAt(blobs: seq<BlobEncrypted>, i: nat)
    requires DataSize(blobs) < U64_LIMIT
    requires i < |blobs|
    ensures DataSize(blobs[..i]) < U64_LIMIT && |blobs[i].data| < U64_LIMIT
    ensures HeaderOf(blobs)[i] ==
            HeaderBlob(blobs[i].hash, blobs[i].kind, Zstd, |blobs[i].data|, DataSize(blobs[..i]))
  {
    var n := |blobs| - 1;
    if i < n {
      HeaderAt(blobs[..n], i);
      assert blobs[..n][..i] == blobs[..i];
    }
  }

  /** The offsets tile the data section without gap or overlap: the first entry starts at zero, each
      further one where the one before it ends, and the last ends where the section ends. */
  lemma {:induction false} HeaderTilesData(blobs: seq<BlobEncrypted>, i: nat)
    requires DataSize(blobs) < U64_LIMIT
    requires i < |blobs|
    ensures HeaderOf(blobs)[i].offset ==
            if i == 0 then 0 else HeaderOf(blobs)[i - 1].offset + NONCE_SIZE + HeaderOf(blobs)[i - 1].length
    ensures i == |blobs| - 1 ==> HeaderOf(blobs)[i].offset + NONCE_SIZE + HeaderOf(blobs)[i].length == |DataOf(blobs)|
  {
    HeaderAt(blobs, i);
    if i > 0 {
      HeaderAt(blobs, i - 1);
      assert blobs[..i][..i - 1] == blobs[..i - 1];
    }
  }

  /** At a blob's offset lie exactly its nonce and then its data. */
  lemma {:induction false} SpanHoldsBlob(blobs: seq<BlobEncrypted>, i: nat)
    requires i < |blobs|
    ensures var o := DataSize(blobs[..i]);
            o + NONCE_SIZE + |blobs[i].data| <= |DataOf(blobs)| &&
            DataOf(blobs)[o..o + NONCE_SIZE] == blobs[i].nonce &&
            DataOf(blobs)[o + NONCE_SIZE..o + NONCE_SIZE + |blobs[i].data|] == blobs[i].data
  {
    assert blobs[..i + 1][..i] == blobs[..i];
    DataSizePrefix(blobs, i + 1);
    EndOfPrefix(DataOf(blobs[..i]), blobs[i].nonce, blobs[i].data, DataOf(blobs));
  }

  lemma {:induction false} EndOfPrefix(a: Bytes, b: Bytes, c: Bytes, whole: Bytes)
    requires a + b + c <= whole
    ensures whole[|a|..|a| + |b|] == b
    ensures whole[|a| + |b|..|a| + |b| + |c|] == c
  {
    var s := a + b + c;
    assert s[|a|..|a| + |b|] == b;
    assert s[|a| + |b|..] == c;
    assert whole[..|s|] == s;
    assert whole[|a|..|a| + |b|] == s[|a|..|a| + |b|];
    assert whole[|a| + |b|..|s|] == s[|a| + |b|..|s|];
  }

  // ----- Whole files -----

  function SealedHeader(p: Primitives, id: PackfileId, header: seq<HeaderBlob>): Bytes
    requires |header| < U64_LIMIT
  {
    p.seal(p.deriveKey(HEADER_INFO), id, SerializeVec(header, EncodeHeaderBlob))
  }

  function SerializeParts(p: Primitives, id: PackfileId, header: seq<HeaderBlob>, data: Bytes): Bytes
    requires |header| < U64_LIMIT
  {
    var sealed := SealedHeader(p, id, header);
    LeBytes(|sealed|, 8) + sealed + data
  }

  function Serialized(p: Primitives, id: PackfileId, blobs: seq<BlobEncrypted>): Bytes
    requires |blobs| < U64_LIMIT && DataSize(blobs) < U64_LIMIT
  {
    SerializeParts(p, id, HeaderOf(blobs), DataOf(blobs))
  }

  // ----- Batches -----

  /** Neither threshold has been reached, so another blob may still be added. */
  predicate BelowThresholds(blobs: seq<BlobEncrypted>) {
    DataSize(blobs) < PACKFILE_TARGET_SIZE && |blobs| < PACKFILE_MAX_BLOBS
  }

  /** What write_packfiles puts in one packfile: at least one blob, and no blob after a threshold. */
  ghost predicate Batch(blobs: seq<BlobEncrypted>) {
    blobs != [] && BelowThresholds(blobs[..|blobs| - 1]) && forall b :: b in blobs ==> |b.data| <= SEALED_MAX
  }

  lemma {:induction false} BatchSize(blobs: seq<BlobEncrypted>)
    requires Batch(blobs)
    ensures |blobs| <= PACKFILE_MAX_BLOBS
    ensures DataSize(blobs) <= PACKFILE_TARGET_SIZE + SEALED_MAX + NONCE_SIZE
  {
    assert blobs[|blobs| - 1] in blobs;
  }

  lemma {:induction false} HeaderBlobLength(e: HeaderBlob)
    requires e.length < 0x1_0000_0000 && e.offset < 0x1_0000_0000
    ensures |EncodeHeaderBlob(e)| <= 44
  {
  }

  lemma {:induction false} HeaderLength(blobs: seq<BlobEncrypted>)
    requires Batch(blobs)
    ensures DataSize(blobs) < U64_LIMIT
    ensures |EncodeAll(HeaderOf(blobs), EncodeHeaderBlob)| <= 4_400_000
  {
    BatchSize(blobs);
    var header := HeaderOf(blobs);
    forall i | 0 <= i < |header|
      ensures |EncodeHeaderBlob(header[i])| <= 44
    {
      HeaderAt(blobs, i);
      DataSizePrefix(blobs, i);
      assert blobs[i] in blobs;
      HeaderBlobLength(header[i]);
    }
    EncodeAllLength(header, EncodeHeaderBlob, 44);
  }

  function OpenHeader(p: Primitives, id: PackfileId, sealed: Bytes): Result<seq<HeaderBlob>, PackfileError> {
    match p.open(p.deriveKey(HEADER_INFO), id, sealed)
    case None => Err(CryptoError)
    case Some(encoded) =>
      match DeserializeVec(encoded, DecodeHeaderBlob)
      case None => Err(SerializationError)
      case Some(header) => Ok(header)
  }

  lemma {:induction false} SealedHeaderOpens(p: Primitives, id: PackfileId, header: seq<HeaderBlob>)
    requires Lawful(p)
    requires |header| < U64_LIMIT
    ensures OpenHeader(p, id, SealedHeader(p, id, header)) == Ok(header)
    ensures |SealedHeader(p, id, header)| == |SerializeVec(header, EncodeHeaderBlob)| + TAG_SIZE
  {
    HeaderCodecInverts();
    VecRoundTrip(header, EncodeHeaderBlob, DecodeHeaderBlob);
    var encoded := SerializeVec(header, EncodeHeaderBlob);
    var sealed := SealedHeader(p, id, header);
    assert |sealed| == |encoded| + TAG_SIZE && p.open(p.deriveKey(HEADER_INFO), id, sealed) == Some(encoded);
  }

  /** The limit that write_packfiles asserts holds for every batch it can form. */
  lemma {:induction false} BatchFitsPackfile(p: Primitives, id: PackfileId, blobs: seq<BlobEncrypted>)
    requires Lawful(p)
    requires Batch(blobs)
    ensures |blobs| < U64_LIMIT && DataSize(blobs) < U64_LIMIT
    ensures |Serialized(p, id, blobs)| <= PACKFILE_MAX_SIZE
  {
    BatchSize(blobs);
    HeaderLength(blobs);
    var header := HeaderOf(blobs);
    SealedHeaderOpens(p, id, header);
    assert |Serialized(p, id, blobs)| == 8 + |SealedHeader(p, id, header)| + |DataOf(blobs)|;
  }

  // ----- Reading one blob back -----

  /** The first entry that carries the hash. */
  function FirstWithHash(header: seq<HeaderBlob>, hash: Hash): Option<HeaderBlob> {
    if header == [] then None
    else if header[0].hash == hash then Some(header[0])
    else FirstWithHash(header[1..], hash)
  }

  lemma {:induction false} FirstWithHashAt(header: seq<HeaderBlob>, i: nat)
    requires i < |header|
    requires forall j :: 0 <= j < i ==> header[j].hash != header[i].hash
    ensures FirstWithHash(header, header[i].hash) == Some(header[i])
  {
    if i > 0 {
      assert header[0].hash != header[i].hash;
      FirstWithHashAt(header[1..], i - 1);
    }
  }

  /** Position reached by a relative seek: the offset is reinterpreted as a signed 64-bit number. */
  function SeekFrom(position: nat, offset: u64): int {
    position + (if offset < U64_LIMIT / 2 then offset else offset - U64_LIMIT)
  }

  /** Nonce and data at the entry's offset from the end of the header. */
  function ReadEntry(p: Primitives, file: Bytes, dataStart: nat, e: HeaderBlob): Result<Blob, PackfileError> {
    var at := SeekFrom(dataStart, e.offset);
    if at < 0 || at + NONCE_SIZE + e.length > |file| then Err(IoError)
    else DecryptBlob(p, e.hash, e.kind, file[at..at + NONCE_SIZE], file[at + NONCE_SIZE..at + NONCE_SIZE + e.length])
  }

  /** The header entries and the position where the data section starts. */
  function ReadHeader(p: Primitives, id: PackfileId, file: Bytes): (r: Result<(nat, seq<HeaderBlob>), PackfileError>)
    ensures r.Ok? ==> r.value.0 <= |file|
  {
    if |file| > PACKFILE_MAX_SIZE then Err(PackfileTooLarge)
    else if |file| < 8 then Err(IoError)
    else
      var headerSize := LeValue(file[..8]);
      if headerSize > |file| || headerSize == 0 then Err(InvalidHeaderSize)
      else if 8 + headerSize > |file| then Err(IoError)
      else
        match OpenHeader(p, id, file[8..8 + headerSize])
        case Err(e) => Err(e)
        case Ok(header) => Ok((8 + headerSize, header))
  }

  /** What reading the blob with this hash out of one packfile gives. */
  function ReadBlob(p: Primitives, id: PackfileId, file: Bytes, hash: Hash): Result<Blob, PackfileError> {
    match ReadHeader(p, id, file)
    case Err(e) => Err(e)
    case Ok((dataStart, header)) =>
      match FirstWithHash(header, hash)
      case None => Err(IndexHeaderMismatch)
      case Some(e) => ReadEntry(p, file, dataStart, e)
  }

  lemma {:induction false} FileLayout(sealed: Bytes, data: Bytes)
    requires |sealed| < U64_LIMIT
    ensures var file := LeBytes(|sealed|, 8) + sealed + data;
            |file| == 8 + |sealed| + |data| && LeValue(file[..8]) == |sealed| &&
            file[8..8 + |sealed|] == sealed && file[8 + |sealed|..] == data
  {
    Widths();
    LeRoundTrip(|sealed|, 8);
    DropPrefix(LeBytes(|sealed|, 8), sealed);
    DropPrefix(LeBytes(|sealed|, 8) + sealed, data);
    assert (LeBytes(|sealed|, 8) + sealed + data)[..8] == LeBytes(|sealed|, 8);
  }

  /** Reading the header of a written packfile passes every guard and gives its entries. */
  lemma {:induction false} HeaderReadsBack(p: Primitives, id: PackfileId, blobs: seq<BlobEncrypted>)
    requires Lawful(p)
    requires Batch(blobs)
    ensures |blobs| < U64_LIMIT && DataSize(blobs) < U64_LIMIT
    ensures var file := Serialized(p, id, blobs);
            var r := ReadHeader(p, id, file);
            r.Ok? && r.value.1 == HeaderOf(blobs) && r.value.0 <= |file| && file[r.value.0..] == DataOf(blobs)
  {
    BatchFitsPackfile(p, id, blobs);
    var sealed := SealedHeader(p, id, HeaderOf(blobs));
    SealedHeaderOpens(p, id, HeaderOf(blobs));
    FileLayout(sealed, DataOf(blobs));
  }

  lemma {:induction false} EntryReadsBack(p: Primitives, file: Bytes, start: nat, data: Bytes, e: HeaderBlob,
                                          b: BlobEncrypted)
    requires start <= |file| <= PACKFILE_MAX_SIZE && file[start..] == data
    requires e.hash == b.hash && e.kind == b.kind && e.length == |b.data|
    requires e.offset + NONCE_SIZE + |b.data| <= |data|
    requires data[e.offset..e.offset + NONCE_SIZE] == b.nonce
    requires data[e.offset + NONCE_SIZE..e.offset + NONCE_SIZE + |b.data|] == b.data
    ensures ReadEntry(p, file, start, e) == Plain(p, b)
  {
    var at := start + e.offset;
    assert file[at..at + NONCE_SIZE] == data[e.offset..e.offset + NONCE_SIZE];
    assert file[at + NONCE_SIZE..at + NONCE_SIZE + e.length]
        == data[e.offset + NONCE_SIZE..e.offset + NONCE_SIZE + e.length];
  }

  lemma {:induction false} HeaderFindsFirst(blobs: seq<BlobEncrypted>, i: nat)
    requires DataSize(blobs) < U64_LIMIT
    requires i < |blobs|
    requires forall j :: 0 <= j < i ==> blobs[j].hash != blobs[i].hash
    ensures FirstWithHash(HeaderOf(blobs), blobs[i].hash) == Some(HeaderOf(blobs)[i])
  {
    var header := HeaderOf(blobs);
    forall j | 0 <= j <= i
      ensures header[j].hash == blobs[j].hash
    {
      HeaderAt(blobs, j);
    }
    FirstWithHashAt(header, i);
  }

  lemma {:induction false} BlobReadsFrom(p: Primitives, id: PackfileId, file: Bytes, start: nat,
                                         blobs: seq<BlobEncrypted>, i: nat)
    requires DataSize(blobs) < U64_LIMIT
    requires ReadHeader(p, id, file) == Ok((start, HeaderOf(blobs)))
    requires start <= |file| <= PACKFILE_MAX_SIZE && file[start..] == DataOf(blobs)
    requires i < |blobs|
    requires forall j :: 0 <= j < i ==> blobs[j].hash != blobs[i].hash
    ensures ReadBlob(p, id, file, blobs[i].hash) == Plain(p, blobs[i])
  {
    HeaderAt(blobs, i);
    SpanHoldsBlob(blobs, i);
    HeaderFindsFirst(blobs, i);
    EntryReadsBack(p, file, start, DataOf(blobs), HeaderOf(blobs)[i], blobs[i]);
  }

  /** Reading any blob of a written packfile gives what was sealed there. */
  lemma {:induction false} BlobReadsBack(p: Primitives, id: PackfileId, blobs: seq<BlobEncrypted>, i: nat)
    requires Lawful(p)
    requires Batch(blobs)
    requires i < |blobs|
    requires forall j :: 0 <= j < i ==> blobs[j].hash != blobs[i].hash
    ensures |blobs| < U64_LIMIT && DataSize(blobs) < U64_LIMIT
    ensures ReadBlob(p, id, Serialized(p, id, blobs), blobs[i].hash) == Plain(p, blobs[i])
  {
    HeaderReadsBack(p, id, blobs);
    BatchFitsPackfile(p, id, blobs);
    var file := Serialized(p, id, blobs);
    BlobReadsFrom(p, id, file, ReadHeader(p, id, file).value.0, blobs, i);
  }
}
