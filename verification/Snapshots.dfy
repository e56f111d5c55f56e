/** Directory trees as maps from paths, and what it means for stored blobs to be a snapshot of one. */
module Snapshots {
  import opened Wrappers
  import opened ByteStrings
  import opened Primitives
  import opened PackfileFormat
  import opened Trees

  type Path = seq<Name>

  function Parent(q: Path): Path
    requires q != []
  {
    q[..|q| - 1]
  }

  function Last(q: Path): Name
    requires q != []
  {
    q[|q| - 1]
  }

  lemma {:induction false} ChildPath(q: Path, n: Name)
    ensures Parent(q + [n]) == q && Last(q + [n]) == n
  {
  }

  /** Seconds since the epoch, negative before it; None where the platform keeps none. */
  datatype Times = Times(mtime: Option<int>, ctime: Option<int>)

  datatype FsEntry =
    | Directory(size: u64, times: Times)
    | File(content: Bytes, times: Times)
    | Other // symbolic links, devices, sockets

  type Fs = map<Path, FsEntry>

  ghost predicate WellFormed(fs: Fs) {
    [] in fs && fs[[]].Directory? && |fs| < U64_LIMIT &&
    (forall q :: q in fs && q != [] ==>
      Parent(q) in fs && fs[Parent(q)].Directory? && 1 <= |Last(q)| <= NAME_MAX_BYTES) &&
    forall q :: q in fs && fs[q].File? ==> |fs[q].content| < U64_LIMIT
  }

  ghost function Directories(fs: Fs): set<Path> {
    set q | q in fs && fs[q].Directory?
  }

  /** What a directory lists, in no particular order. */
  function ChildNames(fs: Fs, q: Path): set<Name> {
    set c | c in fs && c != [] && Parent(c) == q :: Last(c)
  }

  lemma {:induction false} ChildNamesAre(fs: Fs, q: Path, n: Name)
    ensures n in ChildNames(fs, q) <==> q + [n] in fs
  {
    if q + [n] in fs {
      ChildPath(q, n);
    }
    if n in ChildNames(fs, q) {
      var c :| c in fs && c != [] && Parent(c) == q && Last(c) == n;
      assert c == q + [n];
    }
  }

  /** Lists a directory; the order is up to the platform. */
  method ListDir(fs: Fs, q: Path) returns (names: seq<Name>)
    ensures NoDuplicates(names)
    ensures forall n :: n in names <==> q + [n] in fs
  {
    var all := ChildNames(fs, q);
    var rest := all;
    names := [];
    while rest != {}
      invariant NoDuplicates(names)
      invariant forall n :: n in all <==> n in names || n in rest
      invariant forall n :: n in names ==> n !in rest
    {
      var n :| n in rest;
      names := names + [n];
      rest := rest - {n};
    }
    forall n: Name
      ensures n in names <==> q + [n] in fs
    {
      ChildNamesAre(fs, q, n);
    }
  }

  /** A time before the epoch cannot be recorded. */
  function RecordTime(t: Option<int>): Option<u64> {
    if t.Some? && 0 <= t.value < U64_LIMIT / 2 then Some(t.value) else None
  }

  function GetMetadata(e: FsEntry): Metadata
    requires e.File? ==> |e.content| < U64_LIMIT
  {
    match e
    case Directory(size, times) => Metadata(Some(size), RecordTime(times.mtime), RecordTime(times.ctime))
    case File(content, times) => Metadata(Some(|content|), RecordTime(times.mtime), RecordTime(times.ctime))
    case Other => Metadata(None, None, None)
  }

  /** What a recorded time says: a time from the epoch on, in signed 64-bit seconds, is kept as it is, and any
      other is not recorded. */
  ghost predicate TimeKept(t: Option<int>, recorded: Option<u64>) {
    (forall seconds :: t == Some(seconds) && 0 <= seconds < 0x8000_0000_0000_0000 ==> recorded == Some(seconds)) &&
    (t.None? ==> recorded.None?) &&
    (forall seconds :: t == Some(seconds) && !(0 <= seconds < 0x8000_0000_0000_0000) ==> recorded.None?)
  }

  ghost predicate MetadataKept(e: FsEntry, m: Metadata) {
    match e
    case Directory(size, times) =>
      m.size == Some(size) && TimeKept(times.mtime, m.mtime) && TimeKept(times.ctime, m.ctime)
    case File(content, times) =>
      m.size.Some? && m.size.value == |content| && TimeKept(times.mtime, m.mtime) && TimeKept(times.ctime, m.ctime)
    case Other => m == Metadata(None, None, None)
  }

  lemma {:induction false} MetadataIsKept(e: FsEntry)
    requires e.File? ==> |e.content| < U64_LIMIT
    ensures MetadataKept(e, GetMetadata(e))
  {
  }

  // ----- Snapshots -----

  /** For every path kept: its tree; for a directory also the names of its children in tree order, for a
      file also its chunks. */
  datatype Snapshot = Snapshot(trees: map<Path, Tree>, names: map<Path, seq<Name>>, chunks: map<Path, seq<Blob>>)

  function BlobHashes(blobs: seq<Blob>): seq<Hash> {
    seq(|blobs|, i requires 0 <= i < |blobs| => blobs[i].hash)
  }

  function BlobData(blobs: seq<Blob>): seq<Bytes> {
    seq(|blobs|, i requires 0 <= i < |blobs| => blobs[i].data)
  }

  ghost predicate StoredTree(p: Primitives, t: Tree, stored: set<Blob>) {
    Encodable(t) && t.nextSibling.None? && forall i :: 0 <= i < |Chain(p, t)| ==> Chain(p, t)[i] in stored
  }

  /** The children are the root hashes of the trees of the named paths, in order. */
  ghost predicate ChildrenAre(p: Primitives, trees: map<Path, Tree>, q: Path, names: seq<Name>, children: seq<Hash>) {
    |children| == |names| &&
    forall i :: 0 <= i < |names| ==>
      q + [names[i]] in trees && Encodable(trees[q + [names[i]]]) && children[i] == RootHash(p, trees[q + [names[i]]])
  }

  /** A directory's tree has exactly one hash for each of its kept children. */
  ghost predicate DirOk(p: Primitives, s: Snapshot, q: Path) {
    q in s.trees && s.trees[q].kind == DirTree && (q != [] ==> s.trees[q].name == Last(q)) &&
    q in s.names && NoDuplicates(s.names[q]) &&
    (forall n :: n in s.names[q] <==> q + [n] in s.trees) &&
    ChildrenAre(p, s.trees, q, s.names[q], s.trees[q].children)
  }

  /** A file's tree has the hashes of chunks that make up its content. */
  ghost predicate FileOk(s: Snapshot, q: Path, e: FsEntry, stored: set<Blob>) {
    e.File? && |e.content| < U64_LIMIT && q != [] &&
    q in s.trees && s.trees[q].kind == FileTree && s.trees[q].name == Last(q) &&
    s.trees[q].metadata == GetMetadata(e) &&
    q in s.chunks && s.trees[q].children == BlobHashes(s.chunks[q]) &&
    (forall b :: b in s.chunks[q] ==> b in stored) &&
    Concat(BlobData(s.chunks[q])) == e.content
  }

  /** The tree of a path that is kept is that of its entry. */
  ghost predicate KeptAs(p: Primitives, s: Snapshot, q: Path, e: FsEntry, stored: set<Blob>)
    requires q in s.trees
  {
    match e
    case Directory(_, _) => DirOk(p, s, q) && s.trees[q].metadata == GetMetadata(e)
    case File(_, _) => FileOk(s, q, e, stored)
    case Other => false
  }

  lemma {:induction false} KeptMetadata(p: Primitives, s: Snapshot, q: Path, e: FsEntry, stored: set<Blob>)
    requires q in s.trees && KeptAs(p, s, q, e, stored)
    ensures MetadataKept(e, s.trees[q].metadata)
  {
    hide DirOk, MetadataKept;
    MetadataIsKept(e);
  }

  ghost predicate SnapshotOf(p: Primitives, fs: Fs, s: Snapshot, stored: set<Blob>) {
    [] in s.trees &&
    forall q :: q in s.trees ==>
      q in fs && (q != [] ==> Parent(q) in s.trees && Parent(q) in fs && fs[Parent(q)].Directory?) &&
      StoredTree(p, s.trees[q], stored) && KeptAs(p, s, q, fs[q], stored)
  }

  // ----- What a restore produces -----

  /** A restored file has a modification time only if one was recorded. */
  datatype Restored = RestoredDirectory | RestoredFile(content: Bytes, mtime: Option<u64>)

  function RestoredEntry(e: FsEntry): Restored {
    match e
    case File(content, times) => RestoredFile(content, RecordTime(times.mtime))
    case _ => RestoredDirectory
  }

  /** A file comes back with its content and its modification time, if that could be recorded; a directory as a
      directory. */
  ghost predicate Faithful(e: FsEntry, r: Restored) {
    match e
    case Directory(_, _) => r == RestoredDirectory
    case File(content, times) => r.RestoredFile? && r.content == content && TimeKept(times.mtime, r.mtime)
    case Other => false
  }

  lemma {:induction false} CopyIsFaithful(fs: Fs, kept: set<Path>)
    requires forall q :: q in kept ==> q in fs && !fs[q].Other?
    ensures forall q :: q in Copy(fs, kept) ==> q in kept && Faithful(fs[q], Copy(fs, kept)[q])
  {
  }

  /** The faithful copy of the given paths. */
  ghost function Copy(fs: Fs, kept: set<Path>): map<Path, Restored>
    requires kept <= fs.Keys
  {
    map q | q in kept :: RestoredEntry(fs[q])
  }
}
