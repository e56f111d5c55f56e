/** Directory and file trees as stored in blobs: their encoding, the splitting of large ones into a
    chain of hash-linked siblings, and following such a chain. */
module Trees {
  import opened Wrappers
  import opened ByteStrings
  import opened Primitives
  import opened Bincode
  import opened PackfileFormat

  const TREE_BLOB_MAX_CHILDREN: nat := 10_000

  /** A file name in UTF-8. 255 units of the longest platform limit, each at most three bytes. */
  const NAME_MAX_BYTES: nat := 765

  type Name = Bytes

  datatype TreeKind = FileTree | DirTree
  datatype Metadata = Metadata(size: Option<u64>, mtime: Option<u64>, ctime: Option<u64>)

  /** The root's name is whatever the backup path ends in and may be empty. */
  datatype Tree = Tree(kind: TreeKind, name: Bytes, metadata: Metadata, children: seq<Hash>, nextSibling: Option<Hash>)

  predicate Encodable(t: Tree) {
    |t.name| <= NAME_MAX_BYTES && |t.children| < U64_LIMIT
  }

  // ----- Encoding with fixed-width integers -----

  function EncodeKind(k: TreeKind): Bytes { LeBytes(if k.FileTree? then 0 else 1, 4) }

  function DecodeKind(b: Bytes): Parsed<TreeKind> {
    var (tag, rest) :- TakeFixed(b, 4);
    if tag == 0 then Parsed(FileTree, rest) else if tag == 1 then Parsed(DirTree, rest) else Malformed
  }

  function EncodeName(n: Bytes): Bytes
    requires |n| < U64_LIMIT
  {
    LeBytes(|n|, 8) + n
  }

  function DecodeName(b: Bytes): Parsed<Bytes> {
    var (length, rest) :- TakeFixed(b, 8);
    TakeBytes(rest, length)
  }

  function EncodeTime(t: Option<u64>): Bytes {
    match t case None => [0] case Some(n) => [1] + LeBytes(n, 8)
  }

  function DecodeTime(b: Bytes): Parsed<Option<u64>> {
    if b == [] || b[0] > 1 then Malformed
    else if b[0] == 0 then Parsed(None, b[1..])
    else
      Widths();
      var (n, rest) :- TakeFixed(b[1..], 8);
      Parsed(Some(n), rest)
  }

  function EncodeMetadata(m: Metadata): Bytes {
    EncodeTime(m.size) + (EncodeTime(m.mtime) + EncodeTime(m.ctime))
  }

  function DecodeMetadata(b0: Bytes): Parsed<Metadata> {
    var (size, b1) :- DecodeTime(b0);
    var (mtime, b2) :- DecodeTime(b1);
    var (ctime, b3) :- DecodeTime(b2);
    Parsed(Metadata(size, mtime, ctime), b3)
  }

  function EncodeHash(h: Hash): Bytes { h }

  function DecodeHash(b: Bytes): Parsed<Hash> { TakeBytes(b, 32) }

  function EncodeHashes(hs: seq<Hash>): Bytes
    requires |hs| < U64_LIMIT
  {
    LeBytes(|hs|, 8) + EncodeAll(hs, EncodeHash)
  }

  function DecodeHashes(b: Bytes): Parsed<seq<Hash>> {
    var (count, rest) :- TakeFixed(b, 8);
    DecodeMany(count, rest, DecodeHash)
  }

  function EncodeLink(l: Option<Hash>): Bytes {
    match l case None => [0] case Some(h) => [1] + h
  }

  function DecodeLink(b: Bytes): Parsed<Option<Hash>> {
    if b == [] || b[0] > 1 then Malformed
    else if b[0] == 0 then Parsed(None, b[1..])
    else
      var (h, rest) :- TakeBytes(b[1..], 32);
      Parsed(Some(h), rest)
  }

  function EncodeTree(t: Tree): Bytes
    requires Encodable(t)
  {
    EncodeKind(t.kind) + (EncodeName(t.name) + (EncodeMetadata(t.metadata) +
    (EncodeHashes(t.children) + EncodeLink(t.nextSibling))))
  }

  /** Trailing bytes are tolerated, as the original's deserializer does. */
  function DecodeTree(b0: Bytes): Option<Tree> {
    match DecodeTreePrefix(b0)
    case Malformed => None
    case Parsed(t, _) => Some(t)
  }

  function DecodeTreePrefix(b0: Bytes): Parsed<Tree> {
    var (kind, b1) :- DecodeKind(b0);
    var (name, b2) :- DecodeName(b1);
    var (metadata, b3) :- DecodeMetadata(b2);
    var (children, b4) :- DecodeHashes(b3);
    var (next, b5) :- DecodeLink(b4);
    Parsed(Tree(kind, name, metadata, children, next), b5)
  }

  lemma {:induction false} KindRoundTrip(k: TreeKind, rest: Bytes)
    ensures DecodeKind(EncodeKind(k) + rest) == Parsed(k, rest)
  {
    Widths();
    FixedRoundTrip(if k.FileTree? then 0 else 1, 4, rest);
  }

  lemma {:induction false} NameRoundTrip(n: Bytes, rest: Bytes)
    requires |n| < U64_LIMIT
    ensures DecodeName(EncodeName(n) + rest) == Parsed(n, rest)
  {
    Widths();
    Assoc(LeBytes(|n|, 8), n, rest);
    FixedRoundTrip(|n|, 8, n + rest);
    BytesRoundTrip(n, rest);
  }

  lemma {:induction false} TimeRoundTrip(t: Option<u64>, rest: Bytes)
    ensures DecodeTime(EncodeTime(t) + rest) == Parsed(t, rest)
  {
    Widths();
    match t
    case None => assert ([0] + rest)[1..] == rest;
    case Some(n) =>
      FixedRoundTrip(n, 8, rest);
      assert (([1] + LeBytes(n, 8)) + rest)[1..] == LeBytes(n, 8) + rest;
  }

  lemma {:induction false} MetadataRoundTrip(m: Metadata, rest: Bytes)
    ensures DecodeMetadata(EncodeMetadata(m) + rest) == Parsed(m, rest)
  {
    hide DecodeTime, EncodeTime;
    var last := EncodeTime(m.ctime) + rest;
    Assoc(EncodeTime(m.size), EncodeTime(m.mtime) + EncodeTime(m.ctime), rest);
    Assoc(EncodeTime(m.mtime), EncodeTime(m.ctime), rest);
    TimeRoundTrip(m.size, EncodeTime(m.mtime) + last);
    TimeRoundTrip(m.mtime, last);
    TimeRoundTrip(m.ctime, rest);
  }

  lemma {:induction false} HashesRoundTrip(hs: seq<Hash>, rest: Bytes)
    requires |hs| < U64_LIMIT
    ensures DecodeHashes(EncodeHashes(hs) + rest) == Parsed(hs, rest)
  {
    Widths();
    forall h: Hash, rest: Bytes
      ensures DecodeHash(EncodeHash(h) + rest) == Parsed(h, rest)
    {
      BytesRoundTrip(h, rest);
    }
    Assoc(LeBytes(|hs|, 8), EncodeAll(hs, EncodeHash), rest);
    FixedRoundTrip(|hs|, 8, EncodeAll(hs, EncodeHash) + rest);
    ManyRoundTrip(hs, EncodeHash, DecodeHash, rest);
  }

  lemma {:induction false} LinkRoundTrip(l: Option<Hash>, rest: Bytes)
    ensures DecodeLink(EncodeLink(l) + rest) == Parsed(l, rest)
  {
    match l
    case None => assert ([0] + rest)[1..] == rest;
    case Some(h) =>
      BytesRoundTrip(h, rest);
      assert (([1] + h) + rest)[1..] == h + rest;
  }

  lemma {:induction false} TreeRoundTripBefore(t: Tree, rest: Bytes)
    requires Encodable(t)
    ensures DecodeTree(EncodeTree(t) + rest) == Some(t)
  {
    hide DecodeKind, DecodeName, DecodeMetadata, DecodeHashes, DecodeLink;
    hide EncodeKind, EncodeName, EncodeMetadata, EncodeHashes, EncodeLink;
    var e5 := EncodeLink(t.nextSibling);
    var e4 := EncodeHashes(t.children) + e5;
    var e3 := EncodeMetadata(t.metadata) + e4;
    var e2 := EncodeName(t.name) + e3;
    Assoc(EncodeKind(t.kind), e2, rest);
    Assoc(EncodeName(t.name), e3, rest);
    Assoc(EncodeMetadata(t.metadata), e4, rest);
    Assoc(EncodeHashes(t.children), e5, rest);
    KindRoundTrip(t.kind, e2 + rest);
    NameRoundTrip(t.name, e3 + rest);
    MetadataRoundTrip(t.metadata, e4 + rest);
    HashesRoundTrip(t.children, e5 + rest);
    LinkRoundTrip(t.nextSibling, rest);
  }

  /** A tree decodes to itself. */
  lemma {:induction false} TreeRoundTrip(t: Tree)
    requires Encodable(t)
    ensures DecodeTree(EncodeTree(t)) == Some(t)
  {
    TreeRoundTripBefore(t, []);
    assert EncodeTree(t) + [] == EncodeTree(t);
  }

  /** A piece with at most 10,000 children fits the blob limit. */
  lemma {:induction false} PieceFitsBlob(t: Tree)
    requires Encodable(t) && |t.children| <= TREE_BLOB_MAX_CHILDREN
    ensures |EncodeTree(t)| <= 320_845 <= BLOB_MAX
  {
    EncodeAllLength(t.children, EncodeHash, 32);
    assert |EncodeHashes(t.children)| <= 8 + 32 * TREE_BLOB_MAX_CHILDREN;
    assert |EncodeMetadata(t.metadata)| <= 27;
    assert |EncodeName(t.name)| <= 8 + NAME_MAX_BYTES;
    assert |EncodeLink(t.nextSibling)| <= 33;
    hide EncodeName, EncodeMetadata, EncodeHashes, EncodeLink;
  }

  // ----- Chains of siblings -----

  function TreeToBlob(p: Primitives, t: Tree): Blob
    requires Encodable(t)
  {
    var data := EncodeTree(t);
    Blob(p.blake3(data), TreeBlob, data)
  }

  /** The blobs of a tree: itself, or a first piece of 10,000 children linked to the blobs of the rest. */
  function Chain(p: Primitives, t: Tree): (blobs: seq<Blob>)
    requires Encodable(t)
    ensures blobs != []
    decreases |t.children|
  {
    if |t.children| <= TREE_BLOB_MAX_CHILDREN then [TreeToBlob(p, t)]
    else
      var rest := Chain(p, t.(children := t.children[TREE_BLOB_MAX_CHILDREN..], nextSibling := None));
      [TreeToBlob(p, t.(children := t.children[..TREE_BLOB_MAX_CHILDREN], nextSibling := Some(rest[0].hash)))] + rest
  }

  /** The hash by which a tree is referred to: that of its first piece. */
  function RootHash(p: Primitives, t: Tree): Hash
    requires Encodable(t)
  {
    Chain(p, t)[0].hash
  }

  /** Cuts the children into batches, then serializes the batches from the last to the first so that each
      can carry the hash of the one after it. */
  method SplitSerializeTree(p: Primitives, tree: Tree) returns (blobs: seq<Blob>)
    requires Encodable(tree)
    ensures blobs == Chain(p, tree)
  {
    if |tree.children| <= TREE_BLOB_MAX_CHILDREN {
      return [TreeToBlob(p, tree)];
    }
    var splitTree: seq<Tree> := [];
    var at := 0;
    while at < |tree.children|
      invariant at == Min(|splitTree| * TREE_BLOB_MAX_CHILDREN, |tree.children|)
      invariant forall i :: 0 <= i < |splitTree| ==>
                  i * TREE_BLOB_MAX_CHILDREN < |tree.children| &&
                  splitTree[i] == PieceAt(tree, i * TREE_BLOB_MAX_CHILDREN)
    {
      var end := Min(at + TREE_BLOB_MAX_CHILDREN, |tree.children|);
      splitTree := splitTree + [Tree(tree.kind, tree.name, tree.metadata, tree.children[at..end], None)];
      at := end;
    }
    blobs := [];
    var idx := 0;
    while idx < |splitTree|
      invariant 0 <= idx <= |splitTree|
      invariant idx == 0 ==> blobs == []
      invariant idx > 0 ==> blobs == Chain(p, RestFrom(tree, (|splitTree| - idx) * TREE_BLOB_MAX_CHILDREN))
    {
      var i := |splitTree| - 1 - idx;
      var piece := splitTree[i];
      if idx != 0 {
        piece := piece.(nextSibling := Some(blobs[0].hash));
      }
      ghost var later := blobs;
      blobs := [TreeToBlob(p, piece)] + blobs;
      ChainStep(p, tree, i * TREE_BLOB_MAX_CHILDREN, later);
      idx := idx + 1;
    }
    assert RestFrom(tree, 0) == tree.(nextSibling := None);
  }

  /** The piece whose children start at a position, before it is linked. */
  function PieceAt(t: Tree, at: nat): Tree
    requires at <= |t.children|
  {
    t.(children := t.children[at..Min(at + TREE_BLOB_MAX_CHILDREN, |t.children|)], nextSibling := None)
  }

  function RestFrom(t: Tree, at: nat): Tree
    requires at <= |t.children|
  {
    t.(children := t.children[at..], nextSibling := None)
  }

  lemma {:induction false} ChainStep(p: Primitives, t: Tree, at: nat, later: seq<Blob>)
    requires Encodable(t) && at < |t.children|
    requires at + TREE_BLOB_MAX_CHILDREN < |t.children| ==> later == Chain(p, RestFrom(t, at + TREE_BLOB_MAX_CHILDREN))
    requires at + TREE_BLOB_MAX_CHILDREN >= |t.children| ==> later == []
    ensures Chain(p, RestFrom(t, at)) ==
            [TreeToBlob(p, PieceAt(t, at).(nextSibling := if later == [] then None else Some(later[0].hash)))] + later
  {
    var rest := RestFrom(t, at);
    if at + TREE_BLOB_MAX_CHILDREN < |t.children| {
      assert rest.children[TREE_BLOB_MAX_CHILDREN..] == t.children[at + TREE_BLOB_MAX_CHILDREN..];
      assert rest.children[..TREE_BLOB_MAX_CHILDREN] == t.children[at..at + TREE_BLOB_MAX_CHILDREN];
    } else {
      assert PieceAt(t, at) == rest;
    }
  }

  /** Every piece is a tree blob within the limit that decodes to at most 10,000 children. */
  lemma {:induction false} ChainPieces(p: Primitives, t: Tree, i: nat)
    requires Encodable(t) && i < |Chain(p, t)|
    ensures var b := Chain(p, t)[i];
            b.kind == TreeBlob && b.hash == p.blake3(b.data) && |b.data| <= BLOB_MAX &&
            DecodeTree(b.data).Some? && |DecodeTree(b.data).value.children| <= TREE_BLOB_MAX_CHILDREN
    decreases |t.children|
  {
    if |t.children| <= TREE_BLOB_MAX_CHILDREN {
      PieceFitsBlob(t);
      TreeRoundTrip(t);
    } else {
      var rest := t.(children := t.children[TREE_BLOB_MAX_CHILDREN..], nextSibling := None);
      if i == 0 {
        var first := t.(children := t.children[..TREE_BLOB_MAX_CHILDREN], nextSibling := Some(Chain(p, rest)[0].hash));
        PieceFitsBlob(first);
        TreeRoundTrip(first);
      } else {
        ChainPieces(p, rest, i - 1);
      }
    }
  }
}
