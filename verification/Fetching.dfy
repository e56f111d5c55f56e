/** Reading trees back through a function from hashes to blobs, and following sibling chains. */
module Fetching {
  import opened Wrappers
  import opened Primitives
  import opened PackfileFormat
  import opened Trees

  /** What get_blob answers for every hash. */
  type Getter = Hash -> Result<Option<Blob>, PackfileError>

  datatype UnpackError = ChunkNotFound | NotATree | BadTree | StoreError(error: PackfileError)

  function FetchTree(get: Getter, hash: Hash): Result<Tree, UnpackError> {
    match get(hash)
    case Err(e) => Err(StoreError(e))
    case Ok(None) => Err(ChunkNotFound)
    case Ok(Some(blob)) =>
      if blob.kind != TreeBlob then Err(NotATree)
      else
        match DecodeTree(blob.data)
        case None => Err(BadTree)
        case Some(t) => Ok(t)
  }

  /** The hashes that reading a stored tree leads to, as trees: its next piece and a directory's children. */
  function Links(get: Getter, hash: Hash): set<Hash> {
    match FetchTree(get, hash)
    case Err(_) => {}
    case Ok(t) => TreeLinks(t)
  }

  function TreeLinks(t: Tree): set<Hash> {
    (if t.kind.DirTree? then set c | c in t.children else {}) +
    (if t.nextSibling.Some? then {t.nextSibling.value} else {})
  }

  /** All pieces of a tree are of its kind. */
  ghost predicate SameKindNext(get: Getter, hash: Hash) {
    var t := FetchTree(get, hash);
    t.Ok? && t.value.nextSibling.Some? ==>
      var next := FetchTree(get, t.value.nextSibling.value);
      next.Ok? ==> next.value.kind == t.value.kind
  }

  /** The hashes are listed so that each tree comes after everything it leads to: a tree's bytes contain
      those hashes, so they were computed before its own. */
  ghost predicate Acyclic(get: Getter, order: seq<Hash>) {
    forall i :: 0 <= i < |order| ==>
      SameKindNext(get, order[i]) && forall l :: l in Links(get, order[i]) ==> l in order[..i]
  }

  lemma {:induction false} AcyclicSnoc(get: Getter, order: seq<Hash>, hash: Hash)
    requires Acyclic(get, order) && SameKindNext(get, hash) && forall l :: l in Links(get, hash) ==> l in order
    ensures Acyclic(get, order + [hash])
  {
    hide Links, SameKindNext;
    var longer := order + [hash];
    forall i | 0 <= i < |longer|
      ensures SameKindNext(get, longer[i]) && forall l :: l in Links(get, longer[i]) ==> l in longer[..i]
    {
      assert longer[..i] == order[..i];
    }
  }

  /** Position of the first listing. */
  ghost function Rank(order: seq<Hash>, hash: Hash): (r: nat)
    requires hash in order
    ensures r < |order| && order[r] == hash && hash !in order[..r]
  {
    if order[0] == hash then 0
    else
      assert order == [order[0]] + order[1..];
      var r := Rank(order[1..], hash) + 1;
      assert order[..r] == [order[0]] + order[1..][..r - 1];
      r
  }

  lemma {:induction false} LinkRanksLower(get: Getter, order: seq<Hash>, hash: Hash, link: Hash)
    requires Acyclic(get, order) && hash in order && link in Links(get, hash)
    ensures link in order && Rank(order, link) < Rank(order, hash)
  {
    var r := Rank(order, hash);
    assert link in order[..r];
    var i :| 0 <= i < r && order[i] == link;
    assert order[i] in order[..i + 1];
  }

  /** A fetched tree leads only to hashes that are listed, and earlier than its own. */
  lemma {:induction false} FetchedLinks(get: Getter, order: seq<Hash>, hash: Hash)
    requires Acyclic(get, order) && hash in order
    ensures FetchTree(get, hash).Ok? ==>
              var t := FetchTree(get, hash).value;
              (t.nextSibling.Some? ==>
                 t.nextSibling.value in order && Rank(order, t.nextSibling.value) < Rank(order, hash) &&
                 (FetchTree(get, t.nextSibling.value).Ok? ==>
                  FetchTree(get, t.nextSibling.value).value.kind == t.kind)) &&
              (t.kind.DirTree? ==> forall c :: c in t.children ==> c in order && Rank(order, c) < Rank(order, hash))
  {
    if FetchTree(get, hash).Ok? {
      var t := FetchTree(get, hash).value;
      assert SameKindNext(get, order[Rank(order, hash)]);
      if t.nextSibling.Some? {
        LinkRanksLower(get, order, hash, t.nextSibling.value);
      }
      if t.kind.DirTree? {
        forall c | c in t.children
          ensures c in order && Rank(order, c) < Rank(order, hash)
        {
          LinkRanksLower(get, order, hash, c);
        }
      }
    }
  }

  /** The children of the piece at `next` and of all its later siblings. */
  ghost function FetchSiblings(get: Getter, order: seq<Hash>, next: Option<Hash>): (r: Result<seq<Hash>, UnpackError>)
    requires Acyclic(get, order)
    requires next.Some? ==> next.value in order
    ensures r.Ok? && next.Some? ==>
              FetchTree(get, next.value).Ok? &&
              (FetchTree(get, next.value).value.kind.DirTree? ==>
                 forall c :: c in r.value ==> c in order && Rank(order, c) < Rank(order, next.value))
    decreases if next.Some? then Rank(order, next.value) + 1 else 0
  {
    if next.None? then Ok([])
    else
      FetchedLinks(get, order, next.value);
      match FetchTree(get, next.value)
      case Err(e) => Err(e)
      case Ok(t) =>
        match FetchSiblings(get, order, t.nextSibling)
        case Err(e) => Err(e)
        case Ok(more) => Ok(t.children + more)
  }

  /** The tree at a hash with the children of all its siblings; the first piece's link is left in place. */
  ghost function FetchFullTree(get: Getter, order: seq<Hash>, hash: Hash): (r: Result<Tree, UnpackError>)
    requires Acyclic(get, order) && hash in order
    ensures r.Ok? && r.value.kind.DirTree? ==>
              forall c :: c in r.value.children ==> c in order && Rank(order, c) < Rank(order, hash)
  {
    FetchedLinks(get, order, hash);
    match FetchTree(get, hash)
    case Err(e) => Err(e)
    case Ok(t) =>
      match FetchSiblings(get, order, t.nextSibling)
      case Err(e) => Err(e)
      case Ok(more) => Ok(t.(children := t.children + more))
  }

  /** The blob's data can be read under its hash, whatever the kind recorded with it. */
  ghost predicate Reads(get: Getter, b: Blob) {
    get(b.hash).Ok? && get(b.hash).value.Some? && get(b.hash).value.value.data == b.data
  }

  ghost predicate Holds(get: Getter, blobs: seq<Blob>) {
    forall i :: 0 <= i < |blobs| ==> Reads(get, blobs[i])
  }

  /** What is read under this hash is recorded as a tree. */
  ghost predicate ReadsTree(get: Getter, hash: Hash) {
    get(hash).Ok? && get(hash).value.Some? && get(hash).value.value.kind == TreeBlob
  }

  ghost predicate AreTrees(get: Getter, blobs: seq<Blob>) {
    forall i :: 0 <= i < |blobs| ==> ReadsTree(get, blobs[i].hash)
  }

  lemma {:induction false} AreTreesSplit(get: Getter, blobs: seq<Blob>)
    requires blobs != []
    ensures AreTrees(get, blobs) <==> ReadsTree(get, blobs[0].hash) && AreTrees(get, blobs[1..])
  {
    hide ReadsTree;
    if ReadsTree(get, blobs[0].hash) && AreTrees(get, blobs[1..]) {
      forall i | 0 <= i < |blobs|
        ensures ReadsTree(get, blobs[i].hash)
      {
        if i > 0 {
          assert blobs[1..][i - 1] == blobs[i];
        }
      }
    }
  }

  /** Two trees that agree in everything but the link to a sibling. */
  predicate SameContent(a: Tree, b: Tree) {
    a.kind == b.kind && a.name == b.name && a.metadata == b.metadata && a.children == b.children
  }

  lemma {:induction false} PieceFetches(get: Getter, p: Primitives, t: Tree)
    requires Encodable(t)
    requires Reads(get, TreeToBlob(p, t))
    ensures FetchTree(get, TreeToBlob(p, t).hash) ==
            if ReadsTree(get, TreeToBlob(p, t).hash) then Ok(t) else Err(NotATree)
  {
    hide DecodeTree, EncodeTree;
    TreeRoundTrip(t);
  }

  /** Following the sibling chain of a split tree ends, and gives back its children in order, unless one of
      its pieces is recorded with another kind. */
  lemma {:induction false} SiblingsFetch(get: Getter, order: seq<Hash>, p: Primitives, t: Tree)
    requires Acyclic(get, order)
    requires Encodable(t) && t.nextSibling.None?
    requires Holds(get, Chain(p, t)) && RootHash(p, t) in order
    ensures FetchSiblings(get, order, Some(RootHash(p, t))) ==
            if AreTrees(get, Chain(p, t)) then Ok(t.children) else Err(NotATree)
    decreases |t.children|
  {
    hide FetchTree, EncodeTree, Acyclic, Rank, Reads, ReadsTree;
    var blobs := Chain(p, t);
    FetchedLinks(get, order, blobs[0].hash);
    assert Reads(get, blobs[0]);
    AreTreesSplit(get, blobs);
    if |t.children| <= TREE_BLOB_MAX_CHILDREN {
      PieceFetches(get, p, t);
      assert t.children + [] == t.children;
    } else {
      var rest := t.(children := t.children[TREE_BLOB_MAX_CHILDREN..], nextSibling := None);
      var first := t.(children := t.children[..TREE_BLOB_MAX_CHILDREN], nextSibling := Some(RootHash(p, rest)));
      PieceFetches(get, p, first);
      assert blobs[1..] == Chain(p, rest);
      if ReadsTree(get, blobs[0].hash) {
        forall i | 0 <= i < |Chain(p, rest)|
          ensures Reads(get, Chain(p, rest)[i])
        {
          assert Chain(p, rest)[i] == blobs[i + 1];
        }
        SiblingsFetch(get, order, p, rest);
        assert t.children == first.children + rest.children;
      }
    }
  }

  /** Fetching a tree by its root hash gives its kind, name, metadata and all its children, however many
      pieces it was split into; and fails just when one of the pieces is recorded with another kind. */
  lemma {:induction false} FullTreeFetches(get: Getter, order: seq<Hash>, p: Primitives, t: Tree)
    requires Acyclic(get, order)
    requires Encodable(t) && t.nextSibling.None?
    requires Holds(get, Chain(p, t)) && RootHash(p, t) in order
    ensures var r := FetchFullTree(get, order, RootHash(p, t));
            if AreTrees(get, Chain(p, t)) then r.Ok? && SameContent(r.value, t) else r == Err(NotATree)
  {
    hide FetchTree, EncodeTree, Acyclic, Rank, Reads, ReadsTree;
    SiblingsFetch(get, order, p, t);
    var blobs := Chain(p, t);
    FetchedLinks(get, order, blobs[0].hash);
    assert Reads(get, blobs[0]);
    AreTreesSplit(get, blobs);
    if |t.children| <= TREE_BLOB_MAX_CHILDREN {
      PieceFetches(get, p, t);
    } else {
      var rest := t.(children := t.children[TREE_BLOB_MAX_CHILDREN..], nextSibling := None);
      PieceFetches(get, p, t.(children := t.children[..TREE_BLOB_MAX_CHILDREN],
                              nextSibling := Some(RootHash(p, rest))));
    }
  }
}
