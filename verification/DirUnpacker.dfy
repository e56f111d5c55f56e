/** Restoring a snapshot: a worklist of directories, fetching every child tree through the packfile manager. */
module DirUnpacker {
  import opened Wrappers
  import opened ByteStrings
  import opened Primitives
  import opened PackfileFormat
  import opened Archives
  import opened Packfiles
  import opened Trees
  import opened Fetching
  import opened Snapshots

  /** The index is sorted and maps no hash twice, as after opening a valid folder. */
  ghost predicate Readable(packer: Manager)
    reads packer.index
  {
    SortedByHash(packer.index.items) && UniqueHashes(multiset(packer.index.items))
  }

  ghost function ReaderOf(packer: Manager): Getter
    reads packer.index, packer.disk
  {
    var p, packs, items := packer.disk.p, packer.disk.packs, packer.index.items;
    (h: Hash) => Get(p, packs, items, h)
  }

  method FetchTreeBlob(packer: Manager, hash: Hash) returns (r: Result<Tree, UnpackError>)
    requires Readable(packer)
    ensures r == FetchTree(ReaderOf(packer), hash)
  {
    hide Get, DecodeTree;
    var blob := packer.GetBlob(hash);
    if blob.Err? {
      return Err(StoreError(blob.error));
    }
    if blob.value.None? {
      return Err(ChunkNotFound);
    }
    if blob.value.value.kind != TreeBlob {
      return Err(NotATree);
    }
    match DecodeTree(blob.value.value.data) {
      case None => return Err(BadTree);
      case Some(t) => return Ok(t);
    }
  }

  /** Fetches a tree and appends the children of its siblings, one after another. */
  method FetchTreeAndSiblings(packer: Manager, hash: Hash,
                              ghost order: seq<Hash>) returns (r: Result<Tree, UnpackError>)
    requires Readable(packer)
    requires Acyclic(ReaderOf(packer), order) && hash in order
    ensures r == FetchFullTree(ReaderOf(packer), order, hash)
  {
    hide FetchTree, Acyclic, Rank, Get;
    ghost var get := ReaderOf(packer);
    r := FetchTreeBlob(packer, hash);
    if r.Err? {
      return r;
    }
    var rootTree := r.value;
    ghost var first, appended := rootTree, [];
    FetchedLinks(get, order, hash);
    ghost var all := FetchSiblings(get, order, first.nextSibling);
    var next := rootTree.nextSibling;
    assert first.children + [] == first.children;
    if all.Ok? {
      assert [] + all.value == all.value;
    }
    while next.Some?
      invariant next.Some? ==> next.value in order
      invariant rootTree == first.(children := first.children + appended)
      invariant match FetchSiblings(get, order, next)
                case Err(e) => all == Err(e)
                case Ok(more) => all == Ok(appended + more)
      decreases if next.Some? then Rank(order, next.value) + 1 else 0
    {
      FetchedLinks(get, order, next.value);
      var partial := FetchTreeBlob(packer, next.value);
      if partial.Err? {
        return partial;
      }
      rootTree := rootTree.(children := rootTree.children + partial.value.children);
      Assoc(first.children, appended, partial.value.children);
      ghost var more := FetchSiblings(get, order, partial.value.nextSibling);
      if more.Ok? {
        Assoc(appended, partial.value.children, more.value);
      }
      appended := appended + partial.value.children;
      next := partial.value.nextSibling;
    }
    assert appended + [] == appended;
    return Ok(rootTree);
  }

  /** Writes the chunks of one file in order. A chunk that cannot be read leaves what was written so far,
      without a modification time. */
  method RestoreFile(packer: Manager, tree: Tree, ghost chunks: seq<Blob>) returns (file: Restored)
    requires Readable(packer)
    ensures file.RestoredFile?
    ensures tree.children == BlobHashes(chunks) && Holds(ReaderOf(packer), chunks) ==>
              file == RestoredFile(Concat(BlobData(chunks)), tree.metadata.mtime)
  {
    hide Get;
    var content: Bytes := [];
    var i := 0;
    ghost var good := tree.children == BlobHashes(chunks) && Holds(ReaderOf(packer), chunks);
    while i < |tree.children|
      invariant 0 <= i <= |tree.children|
      invariant good ==> content == Concat(BlobData(chunks[..i]))
    {
      var blob := packer.GetBlob(tree.children[i]);
      if good {
        assert tree.children[i] == chunks[i].hash;
        assert Reads(ReaderOf(packer), chunks[i]);
        assert BlobData(chunks[..i + 1]) == BlobData(chunks[..i]) + [chunks[i].data];
        ConcatSnoc(BlobData(chunks[..i]), chunks[i].data);
      }
      if blob.Err? || blob.value.None? {
        return RestoredFile(content, None);
      }
      content := content + blob.value.value.data;
      i := i + 1;
    }
    if good {
      assert chunks[..i] == chunks;
    }
    return RestoredFile(content, tree.metadata.mtime);
  }

  // ----- Why the worklist empties -----

  /** Number of directory and file trees reached from a hash, counting repetitions. */
  ghost function Weight(get: Getter, order: seq<Hash>, hash: Hash): nat
    requires Acyclic(get, order) && hash in order
    decreases Rank(order, hash), 1, 0
  {
    match FetchFullTree(get, order, hash)
    case Err(_) => 0
    case Ok(t) => if t.kind.DirTree? then 1 + Weights(get, order, t.children, Rank(order, hash)) else 1
  }

  ghost function Weights(get: Getter, order: seq<Hash>, hashes: seq<Hash>, bound: nat): nat
    requires Acyclic(get, order)
    requires forall h :: h in hashes ==> h in order && Rank(order, h) < bound
    decreases bound, 0, |hashes|
  {
    if hashes == [] then 0 else Weight(get, order, hashes[0]) + Weights(get, order, hashes[1..], bound)
  }

  /** Work left on a worklist whose trees were fetched by these hashes. */
  ghost function Load(get: Getter, order: seq<Hash>, from: seq<Hash>): nat
    requires Acyclic(get, order)
    requires forall h :: h in from ==> h in order
  {
    if from == [] then 0 else Weight(get, order, from[0]) + Load(get, order, from[1..])
  }

  lemma {:induction false} LoadSnoc(get: Getter, order: seq<Hash>, from: seq<Hash>, h: Hash)
    requires Acyclic(get, order)
    requires h in order && forall g :: g in from ==> g in order
    ensures Load(get, order, from + [h]) == Load(get, order, from) + Weight(get, order, h)
  {
    hide Weight, Acyclic;
    if from == [] {
      assert Load(get, order, [h]) == Weight(get, order, h) + Load(get, order, []);
    } else {
      LoadSnoc(get, order, from[1..], h);
      assert (from + [h])[1..] == from[1..] + [h];
    }
  }

  /** The worklist: trees still to be expanded and the path of each, with the hashes they came from. */
  ghost predicate WorklistOk(get: Getter, order: seq<Hash>, queue: seq<(Tree, Path)>, from: seq<Hash>)
    requires Acyclic(get, order)
  {
    |queue| == |from| &&
    forall k :: 0 <= k < |queue| ==> from[k] in order && FetchFullTree(get, order, from[k]) == Ok(queue[k].0)
  }

  // ----- Restoring a good snapshot -----

  /** The data of all blobs of a snapshot of fs can be read, and the root hash is its root. */
  ghost predicate Good(get: Getter, p: Primitives, fs: Fs, s: Snapshot, stored: set<Blob>, root: Hash) {
    SnapshotOf(p, fs, s, stored) &&
    (forall b :: b in stored ==> Reads(get, b)) &&
    Encodable(s.trees[[]]) && root == RootHash(p, s.trees[[]])
  }

  /** All pieces of the tree are recorded as trees. */
  ghost predicate TreeKept(get: Getter, p: Primitives, t: Tree) {
    Encodable(t) ==> AreTrees(get, Chain(p, t))
  }

  /** No tree of the snapshot has lost its kind to a file chunk with the same bytes that came first. */
  ghost predicate KindsKept(get: Getter, p: Primitives, s: Snapshot) {
    forall q :: q in s.trees ==> TreeKept(get, p, s.trees[q])
  }

  /** What has been restored was fetched, so its trees have kept their kind. */
  ghost predicate Fetched(get: Getter, p: Primitives, s: Snapshot, restored: set<Path>) {
    forall q :: q in restored && q in s.trees ==> TreeKept(get, p, s.trees[q])
  }

  lemma {:induction false} FetchedMore(get: Getter, p: Primitives, s: Snapshot, restored: set<Path>, q: Path)
    requires Fetched(get, p, s, restored)
    ensures q in s.trees && TreeKept(get, p, s.trees[q]) ==> Fetched(get, p, s, restored + {q})
    ensures q in s.trees && !TreeKept(get, p, s.trees[q]) ==> !KindsKept(get, p, s)
  {
    hide TreeKept;
  }

  /** The tree fetched for a path of a good snapshot is that path's, unless it has lost its kind. */
  lemma {:induction false} GoodTreeFetches(get: Getter, order: seq<Hash>, p: Primitives, fs: Fs, s: Snapshot,
                                           stored: set<Blob>, root: Hash, q: Path)
    requires Acyclic(get, order) && Good(get, p, fs, s, stored, root)
    requires q in s.trees && Encodable(s.trees[q]) && RootHash(p, s.trees[q]) in order
    ensures var r := FetchFullTree(get, order, RootHash(p, s.trees[q]));
            if TreeKept(get, p, s.trees[q]) then r.Ok? && SameContent(r.value, s.trees[q]) else r == Err(NotATree)
  {
    hide Acyclic, DirOk, FileOk, FetchFullTree, Chain, Reads, AreTrees;
    assert StoredTree(p, s.trees[q], stored);
    FullTreeFetches(get, order, p, s.trees[q]);
  }

  /** Worklist entries are directories of the snapshot, with their own trees. */
  ghost predicate Expanding(fs: Fs, s: Snapshot, queue: seq<(Tree, Path)>) {
    forall k :: 0 <= k < |queue| ==>
      var q := queue[k].1;
      q in s.trees && q in fs && fs[q].Directory? && SameContent(queue[k].0, s.trees[q])
  }

  /** What has been restored so far: the root and every child of an expanded directory, faithfully; and
      every restored directory is expanded or waiting. */
  ghost predicate Progress(fs: Fs, s: Snapshot, dest: map<Path, Restored>, expanded: set<Path>, waiting: set<Path>) {
    (forall q :: q in dest <==> q in s.trees && (q == [] || Parent(q) in expanded)) &&
    (forall q :: q in dest ==> q in fs && dest[q] == RestoredEntry(fs[q])) &&
    forall q :: q in dest && fs[q].Directory? ==> q in expanded || q in waiting
  }

  /** With nothing waiting, everything kept has been restored. */
  lemma {:induction false} AllRestored(p: Primitives, fs: Fs, s: Snapshot, stored: set<Blob>,
                                       dest: map<Path, Restored>, expanded: set<Path>, q: Path)
    requires SnapshotOf(p, fs, s, stored)
    requires Progress(fs, s, dest, expanded, {})
    requires q in s.trees
    ensures q in dest
    decreases |q|
  {
    hide StoredTree;
    if q != [] {
      var parent := Parent(q);
      assert parent in s.trees;
      AllRestored(p, fs, s, stored, dest, expanded, parent);
    }
  }

  /** Progress in the middle of expanding a directory: its first children are restored too. */
  ghost predicate MidProgress(fs: Fs, s: Snapshot, dest: map<Path, Restored>, expanded: set<Path>, waiting: set<Path>,
                              path: Path, names: seq<Name>)
  {
    (forall q :: q in dest <==>
      q in s.trees && (q == [] || Parent(q) in expanded || (Parent(q) == path && Last(q) in names))) &&
    (forall q :: q in dest ==> q in fs && dest[q] == RestoredEntry(fs[q])) &&
    forall q :: q in dest && fs[q].Directory? ==> q in expanded || q in waiting || q == path
  }

  ghost function PathsOf(queue: seq<(Tree, Path)>): set<Path> {
    set e | e in queue :: e.1
  }

  lemma {:induction false} NothingWaits()
    ensures PathsOf([]) == {}
  {
  }

  lemma {:induction false} MidStart(fs: Fs, s: Snapshot, dest: map<Path, Restored>, expanded: set<Path>,
                                    waiting: set<Path>, path: Path)
    requires Progress(fs, s, dest, expanded, waiting + {path})
    ensures MidProgress(fs, s, dest, expanded, waiting, path, [])
  {
  }

  lemma {:induction false} MidEnd(p: Primitives, fs: Fs, s: Snapshot, dest: map<Path, Restored>, expanded: set<Path>,
                                  waiting: set<Path>, path: Path)
    requires DirOk(p, s, path)
    requires MidProgress(fs, s, dest, expanded, waiting, path, s.names[path])
    ensures Progress(fs, s, dest, expanded + {path}, waiting)
  {
    forall q | q in s.trees && q != [] && Parent(q) == path
      ensures Last(q) in s.names[path]
    {
      assert q == path + [Last(q)];
    }
  }

  lemma {:induction false} MidStep(fs: Fs, s: Snapshot, dest: map<Path, Restored>, expanded: set<Path>,
                                   waiting: set<Path>, path: Path, names: seq<Name>, n: Name)
    requires MidProgress(fs, s, dest, expanded, waiting, path, names)
    requires path + [n] in s.trees && path + [n] in fs
    ensures var dest' := dest[path + [n] := RestoredEntry(fs[path + [n]])];
            MidProgress(fs, s, dest', expanded, waiting + {path + [n]}, path, names + [n]) &&
            (!fs[path + [n]].Directory? ==> MidProgress(fs, s, dest', expanded, waiting, path, names + [n]))
  {
    ChildPath(path, n);
    forall q | q in s.trees && q != [] && Parent(q) == path && Last(q) == n
      ensures q == path + [n]
    {
    }
  }

  /** Facts about child i of a directory of a good snapshot. */
  lemma {:induction false} GoodChild(get: Getter, order: seq<Hash>, p: Primitives, fs: Fs, s: Snapshot,
                                     stored: set<Blob>, root: Hash, path: Path, i: nat)
    requires Acyclic(get, order) && Good(get, p, fs, s, stored, root)
    requires path in s.trees && path in fs && fs[path].Directory? && i < |s.trees[path].children|
    requires s.trees[path].children[i] in order
    ensures path in s.names && i < |s.names[path]|
    ensures var q := path + [s.names[path][i]];
            var r := FetchFullTree(get, order, s.trees[path].children[i]);
            q in s.trees && q in fs && (!TreeKept(get, p, s.trees[q]) ==> r == Err(NotATree)) &&
            (TreeKept(get, p, s.trees[q]) ==>
               r.Ok? && SameContent(r.value, s.trees[q]) && r.value.name == s.names[path][i] &&
               !fs[q].Other? && (fs[q].Directory? <==> r.value.kind.DirTree?) &&
               (fs[q].File? ==>
                 q in s.chunks && r.value.children == BlobHashes(s.chunks[q]) && Holds(get, s.chunks[q]) &&
                 RestoredFile(Concat(BlobData(s.chunks[q])), r.value.metadata.mtime) == RestoredEntry(fs[q])))
  {
    hide Acyclic, FetchFullTree, StoredTree, RootHash, Chain, Reads, TreeKept;
    var n := s.names[path][i];
    var q := path + [n];
    ChildPath(path, n);
    GoodTreeFetches(get, order, p, fs, s, stored, root, q);
  }

  lemma {:induction false} GoodDirectory(get: Getter, p: Primitives, fs: Fs, s: Snapshot, stored: set<Blob>, root: Hash,
                                         path: Path)
    requires Good(get, p, fs, s, stored, root)
    requires path in s.trees && path in fs && fs[path].Directory?
    ensures DirOk(p, s, path) && |s.names[path]| == |s.trees[path].children|
  {
    hide StoredTree, RootHash;
  }

  /** The first k children of a directory of a good snapshot are restored, and the worklist is in order. */
  ghost predicate Halfway(fs: Fs, s: Snapshot, dest: map<Path, Restored>, queue: seq<(Tree, Path)>,
                          expanded: set<Path>, path: Path, k: nat)
  {
    path in s.names && k <= |s.names[path]| && Expanding(fs, s, queue) &&
    MidProgress(fs, s, dest, expanded, PathsOf(queue), path, s.names[path][..k])
  }

  lemma {:induction false} HalfwayStep(fs: Fs, s: Snapshot, dest: map<Path, Restored>, queue: seq<(Tree, Path)>,
                                       expanded: set<Path>, path: Path, k: nat, child: Tree)
    requires Halfway(fs, s, dest, queue, expanded, path, k) && k < |s.names[path]|
    requires path + [s.names[path][k]] in s.trees && path + [s.names[path][k]] in fs
    ensures var q := path + [s.names[path][k]];
            var dest' := dest[q := RestoredEntry(fs[q])];
            (fs[q].Directory? && SameContent(child, s.trees[q]) ==>
              Halfway(fs, s, dest', queue + [(child, q)], expanded, path, k + 1)) &&
            (!fs[q].Directory? ==> Halfway(fs, s, dest', queue, expanded, path, k + 1))
  {
    hide MidProgress;
    var n := s.names[path][k];
    MidStep(fs, s, dest, expanded, PathsOf(queue), path, s.names[path][..k], n);
    assert s.names[path][..k + 1] == s.names[path][..k] + [n];
    assert PathsOf(queue + [(child, path + [n])]) == PathsOf(queue) + {path + [n]};
  }

  lemma {:induction false} RestoredDirectoryEntry(fs: Fs, q: Path)
    requires q in fs
    ensures fs[q].Directory? ==> RestoredEntry(fs[q]) == RestoredDirectory
  {
  }

  /** What the next child's fetch yields, and where that leaves the restore. */
  lemma {:induction false} ChildOutcome(get: Getter, order: seq<Hash>, p: Primitives, fs: Fs, s: Snapshot,
                                        stored: set<Blob>, root: Hash, dest: map<Path, Restored>,
                                        queue: seq<(Tree, Path)>, expanded: set<Path>, path: Path, k: nat)
      returns (chunks: seq<Blob>)
    requires Acyclic(get, order) && Good(get, p, fs, s, stored, root)
    requires path in s.trees && path in fs && fs[path].Directory? && k < |s.trees[path].children| &&
    s.trees[path].children[k] in order
    requires Halfway(fs, s, dest, queue, expanded, path, k) && Fetched(get, p, s, dest.Keys)
    ensures var r := FetchFullTree(get, order, s.trees[path].children[k]);
            if r.Err? then r.error == NotATree && !KindsKept(get, p, s)
            else
              var q := path + [r.value.name];
              var isFile := r.value.kind.FileTree?;
              var file := RestoredFile(Concat(BlobData(chunks)), r.value.metadata.mtime);
              var dest' := dest[q := if isFile then file else RestoredDirectory];
              (isFile ==> r.value.children == BlobHashes(chunks) && Holds(get, chunks)) &&
              Halfway(fs, s, dest', if isFile then queue else queue + [(r.value, q)], expanded, path, k + 1) &&
              Fetched(get, p, s, dest'.Keys)
  {
    hide Acyclic, FetchFullTree, RestoredEntry, Halfway, Concat, Good, Fetched, KindsKept, TreeKept, Holds;
    GoodChild(get, order, p, fs, s, stored, root, path, k);
    var q := path + [s.names[path][k]];
    FetchedMore(get, p, s, dest.Keys, q);
    assert dest[q := RestoredEntry(fs[q])].Keys == dest.Keys + {q};
    chunks := [];
    if TreeKept(get, p, s.trees[q]) {
      chunks := if fs[q].File? then s.chunks[q] else [];
      HalfwayStep(fs, s, dest, queue, expanded, path, k, FetchFullTree(get, order, s.trees[path].children[k]).value);
      RestoredDirectoryEntry(fs, q);
    }
  }

  /** Fetches one child tree and restores it: a file with its content, a directory onto the worklist. */
  method RestoreChild(packer: Manager, hash: Hash, path: Path, dest0: map<Path, Restored>, queue0: seq<(Tree, Path)>,
                      ghost order: seq<Hash>, ghost from0: seq<Hash>,
                      ghost fs: Fs, ghost s: Snapshot, ghost stored: set<Blob>, ghost root: Hash,
                      ghost expanded: set<Path>, ghost k: nat)
      returns (r: Result<(map<Path, Restored>, seq<(Tree, Path)>), UnpackError>, ghost from: seq<Hash>)
    requires Readable(packer)
    requires Acyclic(ReaderOf(packer), order) && hash in order
    requires WorklistOk(ReaderOf(packer), order, queue0, from0)
    ensures r.Ok? ==> WorklistOk(ReaderOf(packer), order, r.value.1, from)
    ensures r.Ok? ==>
              Load(ReaderOf(packer), order, from) <= Load(ReaderOf(packer), order, from0) + Weight(ReaderOf(packer),
                order, hash)
    ensures Good(ReaderOf(packer), packer.disk.p, fs, s, stored, root) &&
            path in s.trees && path in fs && fs[path].Directory? &&
            k < |s.trees[path].children| && s.trees[path].children[k] == hash &&
            Halfway(fs, s, dest0, queue0, expanded, path, k) &&
            Fetched(ReaderOf(packer), packer.disk.p, s, dest0.Keys) ==>
              if r.Ok? then
                Halfway(fs, s, r.value.0, r.value.1, expanded, path, k + 1) &&
                Fetched(ReaderOf(packer), packer.disk.p, s, r.value.0.Keys)
              else r.error == NotATree && !KindsKept(ReaderOf(packer), packer.disk.p, s)
  {
    hide Acyclic, FetchFullTree, Get, Weight, Rank, RestoredEntry, Halfway, Concat, Good, ReaderOf, Fetched, KindsKept,
         TreeKept, Holds;
    ghost var get := ReaderOf(packer);
    from := from0;
    ghost var chunks: seq<Blob> := [];
    if Good(get, packer.disk.p, fs, s, stored, root) && path in s.trees && path in fs && fs[path].Directory? &&
       k < |s.trees[path].children| && s.trees[path].children[k] == hash &&
       Halfway(fs, s, dest0, queue0, expanded, path, k) &&
       Fetched(get, packer.disk.p, s, dest0.Keys)
    {
      chunks := ChildOutcome(get, order, packer.disk.p, fs, s, stored, root, dest0, queue0, expanded, path, k);
    }
    var fetched := FetchTreeAndSiblings(packer, hash, order);
    if fetched.Err? {
      return Err(fetched.error), from;
    }
    var child := fetched.value;
    var relPath := path + [child.name];
    match child.kind {
      case FileTree =>
        var file := RestoreFile(packer, child, chunks);
        return Ok((dest0[relPath := file], queue0)), from;
      case DirTree =>
        LoadSnoc(get, order, from0, hash);
        from := from0 + [hash];
        return Ok((dest0[relPath := RestoredDirectory], queue0 + [(child, relPath)])), from;
    }
  }

  /** Restores every child of one directory. */
  method ExpandDirectory(packer: Manager, tree: Tree, path: Path, dest0: map<Path, Restored>, queue0: seq<(Tree, Path)>,
                         ghost order: seq<Hash>, ghost from0: seq<Hash>, ghost bound: nat, ghost fs: Fs,
                         ghost s: Snapshot, ghost stored: set<Blob>, ghost root: Hash, ghost expanded: set<Path>)
      returns (r: Result<(map<Path, Restored>, seq<(Tree, Path)>), UnpackError>, ghost from: seq<Hash>)
    requires Readable(packer)
    requires Acyclic(ReaderOf(packer), order)
    requires forall c :: c in tree.children ==> c in order && Rank(order, c) < bound
    requires WorklistOk(ReaderOf(packer), order, queue0, from0)
    ensures r.Ok? ==>
              WorklistOk(ReaderOf(packer), order, r.value.1, from) &&
              Load(ReaderOf(packer), order, from)
                <= Load(ReaderOf(packer), order, from0) + Weights(ReaderOf(packer), order, tree.children, bound)
    ensures Good(ReaderOf(packer), packer.disk.p, fs, s, stored, root) &&
            path in s.trees && path in fs && fs[path].Directory? && tree.children == s.trees[path].children &&
            Halfway(fs, s, dest0, queue0, expanded, path, 0) &&
            Fetched(ReaderOf(packer), packer.disk.p, s, dest0.Keys) ==>
              if r.Ok? then
                Halfway(fs, s, r.value.0, r.value.1, expanded, path, |tree.children|) &&
                Fetched(ReaderOf(packer), packer.disk.p, s, r.value.0.Keys)
              else r.error == NotATree && !KindsKept(ReaderOf(packer), packer.disk.p, s)
  {
    hide Acyclic, FetchFullTree, Get, Weight, Rank, Halfway, Good, ReaderOf, Load, Fetched, KindsKept;
    ghost var get := ReaderOf(packer);
    ghost var good := Good(get, packer.disk.p, fs, s, stored, root) &&
                      path in s.trees && path in fs && fs[path].Directory? && tree.children == s.trees[path].children &&
                      Halfway(fs, s, dest0, queue0, expanded, path, 0) && Fetched(get, packer.disk.p, s, dest0.Keys);
    var dest, queue := dest0, queue0;
    from := from0;
    var i := 0;
    while i < |tree.children|
      invariant 0 <= i <= |tree.children|
      invariant WorklistOk(get, order, queue, from)
      invariant Load(get, order, from) + Weights(get, order, tree.children[i..], bound)
             <= Load(get, order, from0) + Weights(get, order, tree.children, bound)
      invariant good ==> Halfway(fs, s, dest, queue, expanded, path, i) && Fetched(get, packer.disk.p, s, dest.Keys)
    {
      assert tree.children[i..][1..] == tree.children[i + 1..];
      var step;
      step, from := RestoreChild(packer, tree.children[i], path, dest, queue, order, from, fs, s, stored, root,
                                 expanded, i);
      if step.Err? {
        return Err(step.error), from;
      }
      dest, queue := step.value.0, step.value.1;
      i := i + 1;
    }
    return Ok((dest, queue)), from;
  }

  lemma {:induction false} HalfwayStart(p: Primitives, fs: Fs, s: Snapshot, dest: map<Path, Restored>,
      tree: Tree, path: Path, queue: seq<(Tree, Path)>, expanded: set<Path>)
    requires Expanding(fs, s, [(tree, path)] + queue) && path in s.names
    requires Progress(fs, s, dest, expanded, PathsOf([(tree, path)] + queue))
    ensures Halfway(fs, s, dest, queue, expanded, path, 0)
    ensures path in s.trees && path in fs && fs[path].Directory? && SameContent(tree, s.trees[path])
  {
    hide Progress, MidProgress;
    var all := [(tree, path)] + queue;
    assert all[0] == (tree, path);
    forall k | 0 <= k < |queue|
      ensures queue[k] == all[k + 1]
    {
    }
    assert PathsOf(all) == PathsOf(queue) + {path};
    MidStart(fs, s, dest, expanded, PathsOf(queue), path);
    assert s.names[path][..0] == [];
  }

  lemma {:induction false} HalfwayEnd(p: Primitives, fs: Fs, s: Snapshot, dest: map<Path, Restored>,
      queue: seq<(Tree, Path)>, expanded: set<Path>, path: Path)
    requires DirOk(p, s, path)
    requires Halfway(fs, s, dest, queue, expanded, path, |s.names[path]|)
    ensures Expanding(fs, s, queue) && Progress(fs, s, dest, expanded + {path}, PathsOf(queue))
  {
    hide MidProgress, Progress;
    assert s.names[path][..|s.names[path]|] == s.names[path];
    MidEnd(p, fs, s, dest, expanded, PathsOf(queue), path);
  }

  lemma {:induction false} GoodRoot(get: Getter, order: seq<Hash>, p: Primitives, fs: Fs, s: Snapshot,
                                    stored: set<Blob>, root: Hash)
    requires Acyclic(get, order) && Good(get, p, fs, s, stored, root) && root in order
    requires WellFormed(fs)
    ensures var r := FetchFullTree(get, order, root);
            if r.Ok? then
              Expanding(fs, s, [(r.value, [])]) && Fetched(get, p, s, {[]}) &&
              Progress(fs, s, map[[] := RestoredDirectory], {}, PathsOf([(r.value, [])]))
            else r == Err(NotATree) && !KindsKept(get, p, s)
  {
    hide Acyclic, FetchFullTree, StoredTree, RootHash, FileOk, DirOk, SameContent, TreeKept, Reads;
    GoodTreeFetches(get, order, p, fs, s, stored, root, []);
    var none: set<Path>, root0: Path := {}, [];
    FetchedMore(get, p, s, none, root0);
    assert none + {root0} == {root0};
    var r := FetchFullTree(get, order, root);
    if r.Ok? {
      var queue: seq<(Tree, Path)> := [(r.value, [])];
      assert queue[0] in queue;
      assert [] in PathsOf(queue);
    }
  }

  lemma {:induction false} GoodWorklistHead(p: Primitives, get: Getter, fs: Fs, s: Snapshot, stored: set<Blob>,
                                            root: Hash, tree: Tree, path: Path, rest: seq<(Tree, Path)>)
    requires Good(get, p, fs, s, stored, root)
    requires Expanding(fs, s, [(tree, path)] + rest)
    ensures path in s.trees && path in fs && fs[path].Directory? && tree.kind == DirTree
    ensures DirOk(p, s, path) && tree.children == s.trees[path].children
    ensures path in s.names && |s.names[path]| == |tree.children|
  {
    hide StoredTree, RootHash;
    assert ([(tree, path)] + rest)[0] == (tree, path);
    GoodDirectory(get, p, fs, s, stored, root, path);
  }

  lemma {:induction false} WeightOfFetched(get: Getter, order: seq<Hash>, hash: Hash, t: Tree)
    requires Acyclic(get, order) && hash in order
    requires FetchFullTree(get, order, hash) == Ok(t)
    ensures t.kind.DirTree? ==> forall c :: c in t.children ==> c in order && Rank(order, c) < Rank(order, hash)
    ensures Weight(get, order, hash) ==
            if t.kind.DirTree? then 1 + Weights(get, order, t.children, Rank(order, hash)) else 1
  {
  }

  lemma {:induction false} CopyComplete(get: Getter, p: Primitives, fs: Fs, s: Snapshot, stored: set<Blob>, root: Hash,
                                        dest: map<Path, Restored>, expanded: set<Path>)
    requires Good(get, p, fs, s, stored, root)
    requires Progress(fs, s, dest, expanded, {}) && Fetched(get, p, s, dest.Keys)
    ensures s.trees.Keys <= fs.Keys && dest == Copy(fs, s.trees.Keys) && KindsKept(get, p, s)
  {
    hide StoredTree, RootHash, FileOk, DirOk, RestoredEntry, TreeKept, Reads;
    forall q | q in s.trees
      ensures q in dest
    {
      AllRestored(p, fs, s, stored, dest, expanded, q);
    }
  }

  lemma {:induction false} KeptAreThere(get: Getter, p: Primitives, fs: Fs, s: Snapshot, stored: set<Blob>, root: Hash)
    requires Good(get, p, fs, s, stored, root)
    ensures s.trees.Keys <= fs.Keys
  {
    hide StoredTree, RootHash, FileOk, DirOk, Reads;
  }

  /** Restores a snapshot into an empty directory. Errors while fetching a tree end the restore. When the data
      of all blobs can be read, the restore succeeds, with a faithful copy, if and only if no tree of the
      snapshot has lost its kind. */
  method Unpack(packer: Manager, rootHash: Hash, ghost order: seq<Hash>, ghost fs: Fs, ghost s: Snapshot,
                ghost stored: set<Blob>)
      returns (r: Result<map<Path, Restored>, UnpackError>)
    requires Readable(packer)
    requires Acyclic(ReaderOf(packer), order) && rootHash in order
    ensures WellFormed(fs) && Good(ReaderOf(packer), packer.disk.p, fs, s, stored, rootHash) ==>
              s.trees.Keys <= fs.Keys &&
              r == if KindsKept(ReaderOf(packer), packer.disk.p, s) then Ok(Copy(fs, s.trees.Keys)) else Err(NotATree)
  {
    hide Acyclic, FetchFullTree, Get, Weight, Weights, Rank, RestoredEntry, Halfway, Good, ReaderOf, Expanding,
         Progress, DirOk, SameContent, WellFormed, Copy, PathsOf, Readable, Fetched, KindsKept;
    ghost var get := ReaderOf(packer);
    ghost var p := packer.disk.p;
    ghost var good := WellFormed(fs) && Good(get, p, fs, s, stored, rootHash);
    ghost var expanded: set<Path> := {};
    if good {
      KeptAreThere(get, p, fs, s, stored, rootHash);
      GoodRoot(get, order, p, fs, s, stored, rootHash);
    }
    var rootTree := FetchTreeAndSiblings(packer, rootHash, order);
    if rootTree.Err? {
      return Err(rootTree.error);
    }
    var dest: map<Path, Restored> := map[[] := RestoredDirectory];
    assert dest.Keys == {[]};
    var dirQueue: seq<(Tree, Path)> := [(rootTree.value, [])];
    ghost var from := [rootHash];
    while dirQueue != []
      invariant WorklistOk(get, order, dirQueue, from)
      invariant good ==>
                  Expanding(fs, s, dirQueue) && Progress(fs, s, dest, expanded, PathsOf(dirQueue)) &&
                  Fetched(get, p, s, dest.Keys)
      decreases Load(get, order, from)
    {
      var (parentTree, path) := dirQueue[0];
      assert dirQueue == [(parentTree, path)] + dirQueue[1..];
      ghost var hash := from[0];
      WeightOfFetched(get, order, hash, parentTree);
      if good {
        GoodWorklistHead(p, get, fs, s, stored, rootHash, parentTree, path, dirQueue[1..]);
        HalfwayStart(p, fs, s, dest, parentTree, path, dirQueue[1..], expanded);
      }
      dirQueue, from := dirQueue[1..], from[1..];
      match parentTree.kind {
        case FileTree =>
          assert !good;
        case DirTree =>
          var step;
          step, from := ExpandDirectory(packer, parentTree, path, dest, dirQueue, order, from, Rank(order, hash),
                                        fs, s, stored, rootHash, expanded);
          if step.Err? {
            return Err(step.error);
          }
          dest, dirQueue := step.value.0, step.value.1;
          if good {
            HalfwayEnd(p, fs, s, dest, dirQueue, expanded, path);
            expanded := expanded + {path};
          }
      }
    }
    if good {
      NothingWaits();
      CopyComplete(get, p, fs, s, stored, rootHash, dest, expanded);
    }
    return Ok(dest);
  }
}
