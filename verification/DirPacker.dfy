/** Packing a directory tree: directories are taken from the processing queue, each after all of its
    subdirectories, and their files and trees go to the packfile manager. */
module DirPacker {
  import opened Wrappers
  import opened ByteStrings
  import opened Primitives
  import opened PackfileFormat
  import opened Disks
  import opened Packfiles
  import opened Trees
  import opened Snapshots
  import opened TreePacking
  import opened FileTasks
  import opened DirWalk

  ghost function Stored(log: seq<Blob>): set<Blob> {
    set b | b in log
  }

  /** One path of a snapshot in the making: `done` are the packed directories, and files may be there for
      the directories in `begun`. */
  ghost predicate PathOk(p: Primitives, fs: Fs, s: Snapshot, done: set<Path>, begun: set<Path>, log: seq<Blob>, q: Path)
    requires q in s.trees
  {
    q in fs && StoredTree(p, s.trees[q], Stored(log)) && RootHash(p, s.trees[q]) in TreeHashes(log) &&
    match fs[q]
    case Directory(_, _) => q in done && DirOk(p, s, q) && s.trees[q].metadata == GetMetadata(fs[q])
    case File(_, _) => q != [] && Parent(q) in begun && FileOk(s, q, fs[q], Stored(log))
    case Other => false
  }

  ghost predicate Packing(p: Primitives, fs: Fs, s: Snapshot, done: set<Path>, begun: set<Path>, log: seq<Blob>) {
    (forall q :: q in done ==> q in s.trees) &&
    forall q :: q in s.trees ==> PathOk(p, fs, s, done, begun, log, q)
  }

  /** Every file of the given directories is in the snapshot, or was left out because of an error. */
  ghost predicate FilesAccounted(fs: Fs, s: Snapshot, begun: set<Path>, omitted: set<Path>) {
    forall q :: q in fs && fs[q].File? && q != [] && Parent(q) in begun ==> q in s.trees || q in omitted
  }

  lemma {:induction false} PackingLogged(p: Primitives, fs: Fs, s: Snapshot, done: set<Path>, begun: set<Path>,
                                         log: seq<Blob>, log': seq<Blob>)
    requires Packing(p, fs, s, done, begun, log) && log <= log'
    ensures Packing(p, fs, s, done, begun, log')
  {
    hide DirOk, RootHash, Encodable;
    forall b | b in log
      ensures b in log'
    {
    }
    forall q | q in s.trees
      ensures PathOk(p, fs, s, done, begun, log', q)
    {
      assert PathOk(p, fs, s, done, begun, log, q);
    }
  }

  /** Adding a tree at a path whose parent is not packed yet leaves the packed directories as they are. */
  lemma {:induction false} DirOkStable(p: Primitives, s: Snapshot, s': Snapshot, d: Path, q: Path, t: Tree)
    requires DirOk(p, s, d) && d != q
    requires s'.trees == s.trees[q := t] && d in s'.names && s'.names[d] == s.names[d]
    requires q !in s.trees && (q != [] ==> Parent(q) != d)
    ensures DirOk(p, s', d)
  {
    hide RootHash;
    forall n: Name
      ensures n in s'.names[d] <==> d + [n] in s'.trees
    {
      ChildPath(d, n);
    }
    forall i | 0 <= i < |s.names[d]|
      ensures d + [s.names[d][i]] != q
    {
      ChildPath(d, s.names[d][i]);
    }
  }

  lemma {:induction false} AddFile(p: Primitives, fs: Fs, s: Snapshot, done: set<Path>, begun: set<Path>,
                                   log: seq<Blob>, path: Path, name: Name, hash: Hash, tree: Tree, chunks: seq<Blob>)
    requires Packing(p, fs, s, done, begun, log)
    requires path in begun && path !in done && path + [name] in fs && path + [name] !in s.trees
    requires fs[path + [name]].File? && |fs[path + [name]].content| < U64_LIMIT
    requires FilePacked(p, name, fs[path + [name]], hash, tree, chunks, log)
    ensures Packing(p, fs, s.(trees := s.trees[path + [name] := tree], chunks := s.chunks[path + [name] := chunks]),
                    done, begun, log)
  {
    hide RootHash, DirOk, StoredTree, Encodable;
    var q := path + [name];
    ChildPath(path, name);
    var s' := s.(trees := s.trees[q := tree], chunks := s.chunks[q := chunks]);
    forall d | d in s'.trees
      ensures PathOk(p, fs, s', done, begun, log, d)
    {
      if d != q {
        assert PathOk(p, fs, s, done, begun, log, d);
        if fs[d].Directory? {
          assert d in s.names by { DirHasNames(p, s, d); }
          DirOkStable(p, s, s', d, q, tree);
        }
      }
    }
  }

  lemma {:induction false} DirHasNames(p: Primitives, s: Snapshot, d: Path)
    requires DirOk(p, s, d)
    ensures d in s.names
  {
  }

  lemma {:induction false} AddDirectory(p: Primitives, fs: Fs, s: Snapshot, done: set<Path>, begun: set<Path>,
                                        log: seq<Blob>, path: Path, names: seq<Name>, tree: Tree)
    requires Packing(p, fs, s, done, begun, log)
    requires path in begun && path !in done && path in fs && fs[path].Directory? && path !in s.trees
    requires path != [] ==> Parent(path) !in done
    requires tree.kind == DirTree && (path != [] ==> tree.name == Last(path)) && tree.metadata == GetMetadata(fs[path])
    requires NoDuplicates(names) && forall n :: n in names <==> path + [n] in s.trees
    requires ChildrenAre(p, s.trees, path, names, tree.children)
    requires StoredTree(p, tree, Stored(log)) && RootHash(p, tree) in TreeHashes(log)
    ensures Packing(p, fs, s.(trees := s.trees[path := tree], names := s.names[path := names]), done + {path}, begun,
                    log)
  {
    hide RootHash, StoredTree, Encodable;
    var s' := s.(trees := s.trees[path := tree], names := s.names[path := names]);
    assert DirOk(p, s', path) by {
      forall n: Name
        ensures path + [n] != path
      {
        assert |path + [n]| == |path| + 1;
      }
    }
    hide DirOk;
    forall d | d in s'.trees
      ensures PathOk(p, fs, s', done + {path}, begun, log, d)
    {
      if d != path {
        assert PathOk(p, fs, s, done, begun, log, d);
        if fs[d].Directory? {
          DirHasNames(p, s, d);
          DirOkStable(p, s, s', d, path, tree);
        }
      }
    }
  }

  /** While a directory is being packed: its tree so far has one child for each name, and those are the
      packed children of the path. */
  ghost predicate Collecting(p: Primitives, fs: Fs, s: Snapshot, path: Path, names: seq<Name>, children: seq<Hash>) {
    NoDuplicates(names) && (forall n :: n in names <==> path + [n] in s.trees) &&
    ChildrenAre(p, s.trees, path, names, children)
  }

  /** No listed file from position k on has been added, and those before are added or omitted. */
  ghost predicate ListedUpTo(fs: Fs, s: Snapshot, path: Path, listed: seq<Name>, k: nat, omitted: set<Path>)
    requires k <= |listed|
  {
    (forall j :: k <= j < |listed| && path + [listed[j]] in fs && fs[path + [listed[j]]].File? ==>
     path + [listed[j]] !in s.trees) &&
    forall j :: 0 <= j < k && path + [listed[j]] in fs && fs[path + [listed[j]]].File? ==>
      path + [listed[j]] in s.trees || path + [listed[j]] in omitted
  }

  lemma {:induction false} CollectFile(p: Primitives, fs: Fs, s: Snapshot, path: Path, names: seq<Name>,
                                       children: seq<Hash>, name: Name, hash: Hash, tree: Tree, chunks: seq<Blob>)
    requires Collecting(p, fs, s, path, names, children)
    requires path + [name] !in s.trees && Encodable(tree) && hash == RootHash(p, tree)
    ensures Collecting(p, fs, s.(trees := s.trees[path + [name] := tree], chunks := s.chunks[path + [name] := chunks]),
                       path, names + [name], children + [hash])
  {
    hide RootHash, Encodable;
    var q := path + [name];
    forall n: Name
      ensures n in names + [name] <==> path + [n] in s.trees[q := tree]
    {
      ChildPath(path, n);
      ChildPath(path, name);
    }
  }

  lemma {:induction false} ListFile(fs: Fs, s: Snapshot, path: Path, listed: seq<Name>, k: nat, omitted: set<Path>,
                                    s': Snapshot)
    requires NoDuplicates(listed) && k < |listed|
    requires ListedUpTo(fs, s, path, listed, k, omitted)
    requires s'.trees.Keys == s.trees.Keys + {path + [listed[k]]}
    ensures ListedUpTo(fs, s', path, listed, k + 1, omitted)
    ensures ListedUpTo(fs, s, path, listed, k + 1, omitted + {path + [listed[k]]})
    ensures path + [listed[k]] in fs && !fs[path + [listed[k]]].File? ==>
              ListedUpTo(fs, s, path, listed, k + 1, omitted)
  {
    forall j | 0 <= j < |listed| && j != k
      ensures path + [listed[j]] != path + [listed[k]]
    {
      ChildPath(path, listed[j]);
      ChildPath(path, listed[k]);
    }
  }

  lemma {:induction false} ListedFile(fs: Fs, s: Snapshot, path: Path, listed: seq<Name>, k: nat, omitted: set<Path>)
    requires WellFormed(fs) && k < |listed| && ListedUpTo(fs, s, path, listed, k, omitted)
    requires path + [listed[k]] in fs && fs[path + [listed[k]]].File?
    ensures path + [listed[k]] !in s.trees
    ensures |listed[k]| <= NAME_MAX_BYTES && |fs[path + [listed[k]]].content| < U64_LIMIT
  {
    ChildPath(path, listed[k]);
  }

  lemma {:induction false} FilePackedFacts(p: Primitives, name: Name, entry: FsEntry, hash: Hash, tree: Tree,
                                           chunks: seq<Blob>, log: seq<Blob>)
    requires entry.File? && |entry.content| < U64_LIMIT
    requires FilePacked(p, name, entry, hash, tree, chunks, log)
    ensures Encodable(tree) && hash == RootHash(p, tree)
  {
  }

  ghost predicate OnlyFilesAdded(fs: Fs, before: Snapshot, after: Snapshot) {
    (forall q :: q in before.trees ==> q in after.trees && after.trees[q] == before.trees[q]) &&
    forall q :: q in after.trees && q !in before.trees ==> q in fs && fs[q].File?
  }

  /** State of packing the files of one directory, after the first k of its listing. */
  ghost predicate Midway(p: Primitives, fs: Fs, s0: Snapshot, s: Snapshot, done: set<Path>, begun: set<Path>,
                         log: seq<Blob>, path: Path, listed: seq<Name>, k: nat, omitted: set<Path>, names: seq<Name>,
                         children: seq<Hash>)
  {
    k <= |listed| && Packing(p, fs, s, done, begun, log) && Collecting(p, fs, s, path, names, children) &&
    ListedUpTo(fs, s, path, listed, k, omitted) && OnlyFilesAdded(fs, s0, s)
  }

  lemma {:induction false} MidwayFile(p: Primitives, fs: Fs, s0: Snapshot, s: Snapshot, done: set<Path>,
                                      begun: set<Path>, log: seq<Blob>, path: Path, listed: seq<Name>, k: nat,
                                      omitted: set<Path>, names: seq<Name>, children: seq<Hash>, log': seq<Blob>,
                                      hash: Hash, tree: Tree, chunks: seq<Blob>)
    requires WellFormed(fs) && NoDuplicates(listed) && path in begun && path !in done
    requires Midway(p, fs, s0, s, done, begun, log, path, listed, k, omitted, names, children)
    requires k < |listed| && path + [listed[k]] in fs && fs[path + [listed[k]]].File? &&
             |fs[path + [listed[k]]].content| < U64_LIMIT
    requires log <= log' && FilePacked(p, listed[k], fs[path + [listed[k]]], hash, tree, chunks, log')
    ensures var q := path + [listed[k]];
            Midway(p, fs, s0, s.(trees := s.trees[q := tree], chunks := s.chunks[q := chunks]), done, begun, log',
                   path, listed, k + 1, omitted, names + [listed[k]], children + [hash])
  {
    hide Packing, Collecting, ListedUpTo, StoredTree, FilePacked, RootHash, Encodable, WellFormed;
    var q := path + [listed[k]];
    FilePackedFacts(p, listed[k], fs[q], hash, tree, chunks, log');
    ListedFile(fs, s, path, listed, k, omitted);
    PackingLogged(p, fs, s, done, begun, log, log');
    AddFile(p, fs, s, done, begun, log', path, listed[k], hash, tree, chunks);
    CollectFile(p, fs, s, path, names, children, listed[k], hash, tree, chunks);
    ListFile(fs, s, path, listed, k, omitted, s.(trees := s.trees[q := tree], chunks := s.chunks[q := chunks]));
  }

  lemma {:induction false} MidwaySkip(p: Primitives, fs: Fs, s0: Snapshot, s: Snapshot, done: set<Path>,
                                      begun: set<Path>, log: seq<Blob>, path: Path, listed: seq<Name>, k: nat,
                                      omitted: set<Path>, names: seq<Name>, children: seq<Hash>, log': seq<Blob>)
    requires NoDuplicates(listed)
    requires Midway(p, fs, s0, s, done, begun, log, path, listed, k, omitted, names, children)
    requires k < |listed| && path + [listed[k]] in fs && log <= log'
    ensures Midway(p, fs, s0, s, done, begun, log', path, listed, k + 1, omitted + {path + [listed[k]]}, names,
                   children)
    ensures !fs[path + [listed[k]]].File? ==>
              Midway(p, fs, s0, s, done, begun, log', path, listed, k + 1, omitted, names, children)
  {
    hide Packing, Collecting, ListedUpTo;
    var q := path + [listed[k]];
    PackingLogged(p, fs, s, done, begun, log, log');
    ListFile(fs, s, path, listed, k, omitted,
             s.(trees := s.trees[q := Tree(FileTree, [], Metadata(None, None, None), [], None)]));
  }

  /** Packs the files that a directory lists, all of them side by side, and then collects their hashes in the
      order of the listing. A file that fails is left out; only an exhausted index counter, at which the
      original panics, ends the packing. */
  method PackFiles(packer: Manager, fs: Fs, path: Path, listed: seq<Name>, children0: seq<Hash>,
                   ghost names0: seq<Name>, ghost s0: Snapshot, ghost done: set<Path>, ghost begun: set<Path>,
                   ghost log0: seq<Blob>, ghost omitted0: set<Path>, ghost largest: nat)
      returns (r: Result<seq<Hash>, PackfileError>, failed: nat,
               ghost names: seq<Name>, ghost s: Snapshot, ghost log: seq<Blob>, ghost omitted: set<Path>)
    requires packer.Valid() && Lawful(packer.disk.p) && WellFormed(fs)
    requires NoDuplicates(listed) && forall n :: n in listed ==> path + [n] in fs
    requires path in begun && path !in done
    requires Midway(packer.disk.p, fs, s0, s0, done, begun, log0, path, listed, 0, omitted0, names0, children0)
    requires LogOk(log0) && Accepted(packer, log0)
    modifies packer, packer.index, packer.disk
    ensures packer.Valid() && Grown(packer)
    ensures LogOk(log) && Accepted(packer, log)
    ensures r.Ok? ==>
              Midway(packer.disk.p, fs, s0, s, done, begun, log, path, listed, |listed|, omitted, names, r.value)
    ensures omitted0 <= omitted
    ensures r.Ok? && failed == 0 ==> omitted == omitted0 && packer.index.unsaved == old(packer.index.unsaved)
    ensures FilesUpTo(fs, largest) ==>
              packer.Spare() >= old(packer.Spare()) - |listed| * CallsFor(largest) &&
              (old(packer.Spare()) >= |listed| * CallsFor(largest) ==> r.Ok? && failed == 0)
  {
    hide Manager.Valid, Manager.Tracked, Manager.Spare, LogOk, Disk.Complete, Midway, FilePacked, Accepted, Lawful,
         WellFormed, CallsFor, FilesUpTo, TaskOk, TreeOf, ChunksOf;
    var entries := seq(|listed|, i requires 0 <= i < |listed| => fs[path + [listed[i]]]);
    ListedEntries(fs, path, listed, entries, largest);
    var tasks; ghost var accepted;
    tasks, log, accepted := RunTasks(packer, listed, entries, log0, largest);
    MidwayLogged(packer.disk.p, fs, s0, s0, done, begun, log0, path, listed, 0, omitted0, names0, children0, log);
    var children := children0;
    names, s, omitted, failed := names0, s0, omitted0, 0;
    var i := 0;
    while i < |listed|
      modifies {}
      invariant 0 <= i <= |listed|
      invariant Midway(packer.disk.p, fs, s0, s, done, begun, log, path, listed, i, omitted, names, children)
      invariant omitted0 <= omitted
      invariant failed == 0 ==> omitted == omitted0
      invariant failed == 0 <==> forall j :: 0 <= j < i ==> !Failed(tasks[j])
    {
      var q := path + [listed[i]];
      assert TaskOk(packer.disk.p, listed[i], entries[i], tasks[i], log, accepted);
      TaskResult(packer.disk.p, listed[i], entries[i], tasks[i], log, accepted);
      assert tasks[i] in tasks && listed[i] in listed;
      if tasks[i].Done? && tasks[i].result.Ok? {
        var hash := tasks[i].result.value;
        ghost var tree, chunks := TreeOf(packer.disk.p, listed[i], fs[q]), ChunksOf(packer.disk.p, fs[q].content);
        MidwayFile(packer.disk.p, fs, s0, s, done, begun, log, path, listed, i, omitted, names, children, log, hash,
                   tree, chunks);
        s := s.(trees := s.trees[q := tree], chunks := s.chunks[q := chunks]);
        names, children := names + [listed[i]], children + [hash];
      } else {
        MidwaySkip(packer.disk.p, fs, s0, s, done, begun, log, path, listed, i, omitted, names, children, log);
        if tasks[i].Done? {
          if tasks[i].result.error == IndexCounterOverflow {
            return Err(IndexCounterOverflow), failed, names, s, log, omitted;
          }
          omitted, failed := omitted + {q}, failed + 1;
        }
      }
      i := i + 1;
    }
    return Ok(children), failed, names, s, log, omitted;
  }

  lemma {:induction false} MidwayLogged(p: Primitives, fs: Fs, s0: Snapshot, s: Snapshot, done: set<Path>,
                                        begun: set<Path>, log: seq<Blob>, path: Path, listed: seq<Name>, k: nat,
                                        omitted: set<Path>, names: seq<Name>, children: seq<Hash>, log': seq<Blob>)
    requires Midway(p, fs, s0, s, done, begun, log, path, listed, k, omitted, names, children) && log <= log'
    ensures Midway(p, fs, s0, s, done, begun, log', path, listed, k, omitted, names, children)
  {
    hide Packing, Collecting, ListedUpTo;
    PackingLogged(p, fs, s, done, begun, log, log');
  }

  /** What a finished task says of its file. */
  lemma {:induction false} TaskResult(p: Primitives, name: Name, entry: FsEntry, t: FileTask, log: seq<Blob>,
                                      accepted: seq<Blob>)
    requires TaskOk(p, name, entry, t, log, accepted) && !Running(t)
    ensures t.Done? <==> entry.File?
    ensures entry.File? ==> |entry.content| < U64_LIMIT
    ensures t.Done? && t.result.Ok? ==>
              FilePacked(p, name, entry, t.result.value, TreeOf(p, name, entry), ChunksOf(p, entry.content), log)
  {
    hide FilePacked, ChunksOf;
  }

  lemma {:induction false} ListedEntries(fs: Fs, path: Path, listed: seq<Name>, entries: seq<FsEntry>, largest: nat)
    requires WellFormed(fs) && forall n :: n in listed ==> path + [n] in fs
    requires |entries| == |listed| && forall i :: 0 <= i < |listed| ==> entries[i] == fs[path + [listed[i]]]
    ensures forall i :: 0 <= i < |listed| ==> Suitable(listed[i], entries[i])
    ensures FilesUpTo(fs, largest) ==> forall e :: e in entries && e.File? ==> |e.content| <= largest
  {
    hide WellFormed;
    forall i | 0 <= i < |listed|
      ensures Suitable(listed[i], entries[i])
    {
      assert listed[i] in listed;
      FileBounds(fs, path, listed[i]);
    }
  }

  /** No file is larger than this. */
  ghost predicate FilesUpTo(fs: Fs, largest: nat) {
    forall q :: q in fs && fs[q].File? ==> |fs[q].content| <= largest
  }

  lemma {:induction false} OneMore(i: nat, n: nat, cost: nat)
    requires i < n
    ensures (i + 1) * cost == i * cost + cost <= n * cost
  {
    var rest := n - (i + 1);
    assert n == (i + 1) + rest;
    assert n * cost == (i + 1) * cost + rest * cost;
  }

  lemma {:induction false} FileBounds(fs: Fs, path: Path, name: Name)
    requires WellFormed(fs) && path + [name] in fs
    ensures |name| <= NAME_MAX_BYTES
    ensures fs[path + [name]].File? ==> |fs[path + [name]].content| < U64_LIMIT
  {
    ChildPath(path, name);
  }

  // ----- One directory -----

  /** A node's collected hashes are the root hashes of its subdirectories that are packed, one each. */
  ghost predicate NodeReady(p: Primitives, s: Snapshot, done: set<Path>, path: Path, names: seq<Name>,
                            children: seq<Hash>)
  {
    NoDuplicates(names) && (forall n :: n in names <==> path + [n] in done) &&
    ChildrenAre(p, s.trees, path, names, children)
  }

  lemma {:induction false} MidwayStarts(p: Primitives, fs: Fs, s: Snapshot, done: set<Path>, log: seq<Blob>, path: Path,
                                        listed: seq<Name>, omitted: set<Path>, names: seq<Name>, children: seq<Hash>)
    requires Packing(p, fs, s, done, done, log) && path !in done
    requires NodeReady(p, s, done, path, names, children)
    ensures Midway(p, fs, s, s, done, done + {path}, log, path, listed, 0, omitted, names, children)
  {
    hide DirOk, StoredTree, RootHash, Encodable;
    forall n: Name
      ensures path + [n] in s.trees <==> path + [n] in done
    {
      ChildPath(path, n);
      if path + [n] in s.trees {
        assert PathOk(p, fs, s, done, done, log, path + [n]);
      }
    }
    forall q | q in s.trees
      ensures PathOk(p, fs, s, done, done + {path}, log, q)
    {
      assert PathOk(p, fs, s, done, done, log, q);
    }
  }

  lemma {:induction false} ChildrenLogged(p: Primitives, fs: Fs, s: Snapshot, done: set<Path>, begun: set<Path>,
                                          log: seq<Blob>, path: Path, names: seq<Name>, children: seq<Hash>)
    requires Packing(p, fs, s, done, begun, log) && ChildrenAre(p, s.trees, path, names, children)
    ensures forall c :: c in children ==> c in TreeHashes(log)
  {
    hide DirOk, StoredTree, RootHash, TreeHashes, Encodable;
    forall c | c in children
      ensures c in TreeHashes(log)
    {
      var i :| 0 <= i < |children| && children[i] == c;
      assert PathOk(p, fs, s, done, begun, log, path + [names[i]]);
    }
  }

  lemma {:induction false} CountChildren(names: seq<Name>, path: Path, paths: set<Path>)
    requires NoDuplicates(names) && forall n :: n in names ==> path + [n] in paths
    ensures |names| <= |paths|
  {
    if names != [] {
      var k := |names| - 1;
      var q := path + [names[k]];
      forall n | n in names[..k]
        ensures path + [n] in paths - {q}
      {
        ChildPath(path, n);
        ChildPath(path, names[k]);
      }
      CountChildren(names[..k], path, paths - {q});
      assert q in paths;
    }
  }

  lemma {:induction false} DirTreeEncodable(p: Primitives, fs: Fs, s: Snapshot, done: set<Path>, begun: set<Path>,
                                            log: seq<Blob>, path: Path, names: seq<Name>, tree: Tree)
    requires WellFormed(fs) && Packing(p, fs, s, done, begun, log) && Collecting(p, fs, s, path, names, tree.children)
    requires |tree.name| <= NAME_MAX_BYTES
    ensures Encodable(tree) && |tree.children| <= |fs|
  {
    hide DirOk, StoredTree, RootHash;
    forall n | n in names
      ensures path + [n] in fs.Keys
    {
      assert PathOk(p, fs, s, done, begun, log, path + [n]);
    }
    CountChildren(names, path, fs.Keys);
  }

  lemma {:induction false} FilesOfDirectory(fs: Fs, s: Snapshot, s': Snapshot, done: set<Path>, path: Path,
                                            listed: seq<Name>, omitted: set<Path>, omitted': set<Path>)
    requires FilesAccounted(fs, s, done, omitted) && omitted <= omitted'
    requires s.trees.Keys <= s'.trees.Keys
    requires forall n :: n in listed <==> path + [n] in fs
    requires ListedUpTo(fs, s', path, listed, |listed|, omitted')
    ensures FilesAccounted(fs, s', done + {path}, omitted')
  {
    forall q | q in fs && fs[q].File? && q != [] && Parent(q) in done + {path}
      ensures q in s'.trees || q in omitted'
    {
      if Parent(q) == path {
        assert q == path + [Last(q)];
        var j :| 0 <= j < |listed| && listed[j] == Last(q);
      }
    }
  }

  /** Result of packing one directory: its own tree and those of its files are added, nothing else. */
  ghost predicate DirectoryAdded(p: Primitives, fs: Fs, s0: Snapshot, s: Snapshot, done: set<Path>, log: seq<Blob>,
                                 path: Path, hash: Hash)
  {
    Packing(p, fs, s, done + {path}, done + {path}, log) &&
    (forall q :: q in s0.trees ==> q in s.trees && s.trees[q] == s0.trees[q]) &&
    (forall q :: q in s.trees && q !in s0.trees ==> q in fs && (q == path || fs[q].File?)) &&
    path in s.trees && Encodable(s.trees[path]) && hash == RootHash(p, s.trees[path])
  }

  lemma {:induction false} MidwayEnds(p: Primitives, fs: Fs, s0: Snapshot, s: Snapshot, done: set<Path>, log: seq<Blob>,
                                      path: Path, listed: seq<Name>, omitted: set<Path>, names: seq<Name>, tree: Tree,
                                      log': seq<Blob>, hash: Hash)
    requires Midway(p, fs, s0, s, done, done + {path}, log, path, listed, |listed|, omitted, names, tree.children)
    requires path !in done && path in fs && fs[path].Directory? && path !in s0.trees &&
             (path != [] ==> Parent(path) !in done)
    requires tree.kind == DirTree && (path != [] ==> tree.name == Last(path)) && tree.metadata == GetMetadata(fs[path])
    requires log <= log' && Encodable(tree) && hash == RootHash(p, tree)
    requires StoredTree(p, tree, Stored(log')) && hash in TreeHashes(log')
    ensures DirectoryAdded(p, fs, s0, s.(trees := s.trees[path := tree], names := s.names[path := names]), done, log',
                           path, hash)
  {
    hide Packing, ListedUpTo, StoredTree, RootHash, Encodable;
    PackingLogged(p, fs, s, done, done + {path}, log, log');
    AddDirectory(p, fs, s, done, done + {path}, log', path, names, tree);
  }

  lemma {:induction false} NotYetPacked(p: Primitives, fs: Fs, s: Snapshot, done: set<Path>, begun: set<Path>,
                                        log: seq<Blob>, path: Path)
    requires Packing(p, fs, s, done, begun, log) && path in fs && fs[path].Directory? && path !in done
    ensures path !in s.trees
  {
    hide DirOk, StoredTree, RootHash, Encodable;
  }

  lemma {:induction false} MidwayFacts(p: Primitives, fs: Fs, s0: Snapshot, s: Snapshot, done: set<Path>,
                                       begun: set<Path>, log: seq<Blob>, path: Path, listed: seq<Name>,
                                       omitted: set<Path>, names: seq<Name>, tree: Tree)
    requires WellFormed(fs) && |tree.name| <= NAME_MAX_BYTES
    requires Midway(p, fs, s0, s, done, begun, log, path, listed, |listed|, omitted, names, tree.children)
    ensures Encodable(tree) && forall c :: c in tree.children ==> c in TreeHashes(log)
    ensures |tree.children| <= |fs|
  {
    hide Packing, ListedUpTo, ChildrenAre, OnlyFilesAdded, WellFormed, Encodable;
    DirTreeEncodable(p, fs, s, done, begun, log, path, names, tree);
    ChildrenLogged(p, fs, s, done, begun, log, path, names, tree.children);
  }

  lemma {:induction false} DirectoryFiles(p: Primitives, fs: Fs, s0: Snapshot, s: Snapshot, s': Snapshot,
                                          done: set<Path>, log: seq<Blob>, path: Path, listed: seq<Name>,
                                          omitted0: set<Path>, omitted: set<Path>, names: seq<Name>, tree: Tree)
    requires FilesAccounted(fs, s0, done, omitted0) && omitted0 <= omitted
    requires Midway(p, fs, s0, s, done, done + {path}, log, path, listed, |listed|, omitted, names, tree.children)
    requires forall n :: n in listed <==> path + [n] in fs
    requires s'.trees == s.trees[path := tree]
    ensures FilesAccounted(fs, s', done + {path}, omitted)
  {
    hide Packing, Collecting;
    FilesOfDirectory(fs, s0, s', done, path, listed, omitted0, omitted);
  }

  /** At most so many calls to add_blob are made for a directory of this tree. */
  function CallsForDirectory(fs: Fs, largest: nat): nat {
    |fs| * CallsFor(largest) + |fs| + 1
  }

  lemma {:induction false} ListedCost(fs: Fs, path: Path, listed: seq<Name>, largest: nat)
    requires NoDuplicates(listed) && forall n :: n in listed ==> path + [n] in fs
    ensures |listed| * CallsFor(largest) + |fs| + 1 <= CallsForDirectory(fs, largest)
  {
    CountChildren(listed, path, fs.Keys);
    var c := CallsFor(largest);
    assert |fs| * c == |listed| * c + (|fs| - |listed|) * c;
  }

  /** Packs one directory: its files, then its tree of subdirectories first and files after them. */
  method PackDirectory(packer: Manager, fs: Fs, path: Path, name: Name, children0: seq<Hash>, ghost names0: seq<Name>,
                       ghost s0: Snapshot, ghost done: set<Path>, ghost log0: seq<Blob>, ghost omitted0: set<Path>,
                       ghost largest: nat)
      returns (r: Result<Hash, PackfileError>, failed: nat, ghost s: Snapshot, ghost log: seq<Blob>,
               ghost omitted: set<Path>)
    requires packer.Valid() && Lawful(packer.disk.p) && WellFormed(fs)
    requires path in fs && fs[path].Directory? && path !in done && (path != [] ==> Parent(path) !in done)
    requires |name| <= NAME_MAX_BYTES && (path != [] ==> name == Last(path))
    requires Packing(packer.disk.p, fs, s0, done, done, log0) && FilesAccounted(fs, s0, done, omitted0)
    requires NodeReady(packer.disk.p, s0, done, path, names0, children0)
    requires LogOk(log0) && Accepted(packer, log0)
    modifies packer, packer.index, packer.disk
    ensures packer.Valid() && Grown(packer)
    ensures r.Ok? ==> LogOk(log) && Accepted(packer, log)
    ensures r.Ok? ==> DirectoryAdded(packer.disk.p, fs, s0, s, done, log, path, r.value)
    ensures r.Ok? ==> FilesAccounted(fs, s, done + {path}, omitted)
    ensures r.Ok? && failed == 0 ==> omitted == omitted0 && packer.index.unsaved == old(packer.index.unsaved)
    ensures FilesUpTo(fs, largest) ==>
              packer.Spare() >= old(packer.Spare()) - CallsForDirectory(fs, largest) &&
              (old(packer.Spare()) >= CallsForDirectory(fs, largest) ==> r.Ok? && failed == 0)
  {
    hide Manager.Valid, Manager.Tracked, Manager.Spare, LogOk, Disk.Complete, Midway, Accepted, Lawful, Packing,
         Collecting, StoredTree;
    hide RootHash, WellFormed, FilesAccounted, NodeReady, DirectoryAdded, FilesUpTo, CallsFor, CallsForDirectory;
    var listed := ListDir(fs, path);
    ListedCost(fs, path, listed, largest);
    MidwayStarts(packer.disk.p, fs, s0, done, log0, path, listed, omitted0, names0, children0);
    NotYetPacked(packer.disk.p, fs, s0, done, done, log0, path);
    var hashes; ghost var names;
    hashes, failed, names, s, log, omitted :=
      PackFiles(packer, fs, path, listed, children0, names0, s0, done, done + {path}, log0, omitted0, largest);
    if hashes.Err? {
      return Err(hashes.error), failed, s, log, omitted;
    }
    var dirTree := Tree(DirTree, name, GetMetadata(fs[path]), hashes.value, None);
    ghost var log1 := log;
    MidwayFacts(packer.disk.p, fs, s0, s, done, done + {path}, log, path, listed, omitted, names, dirTree);
    r, log := AddTreeToBlobs(packer, dirTree, log);
    if r.Ok? {
      MidwayEnds(packer.disk.p, fs, s0, s, done, log1, path, listed, omitted, names, dirTree, log, r.value);
      ghost var s' := s.(trees := s.trees[path := dirTree], names := s.names[path := names]);
      DirectoryFiles(packer.disk.p, fs, s0, s, s', done, log1, path, listed, omitted0, omitted, names, dirTree);
      s := s';
    }
  }

  // ----- All directories, in queue order -----

  /** Packing one directory updates the readiness of its parent, by one hash, and of no other node. */
  lemma {:induction false} NodeReadyStep(p: Primitives, fs: Fs, s: Snapshot, s': Snapshot, done: set<Path>,
                                         log: seq<Blob>, path: Path, hash: Hash, node: Path, names: seq<Name>,
                                         children: seq<Hash>)
    requires DirectoryAdded(p, fs, s, s', done, log, path, hash) && path !in done
    requires NodeReady(p, s, done, node, names, children)
    ensures path == [] || Parent(path) != node ==> NodeReady(p, s', done + {path}, node, names, children)
    ensures path != [] && Parent(path) == node ==>
              NodeReady(p, s', done + {path}, node, names + [Last(path)], children + [hash])
  {
    hide Packing, RootHash, Encodable;
    if path == [] || Parent(path) != node {
      forall n: Name
        ensures node + [n] != path
      {
        ChildPath(node, n);
      }
    } else {
      assert node + [Last(path)] == path;
      forall n: Name
        ensures n in names + [Last(path)] <==> node + [n] in done + {path}
      {
        ChildPath(node, n);
      }
    }
  }

  lemma {:induction false} TailParentsLater(queue: seq<FsNode>)
    requires queue != [] && ParentsLater(queue)
    ensures ParentsLater(queue[1..])
  {
    var tail := queue[1..];
    forall i | 0 <= i < |tail| && tail[i].parent != null
      ensures tail[i].parent in tail[i + 1..]
    {
      assert queue[i + 1].parent in queue[i + 2..];
      assert tail[i + 1..] == queue[i + 2..];
    }
  }

  lemma {:induction false} TailPaths(queue: seq<FsNode>)
    requires queue != [] && DistinctPaths(queue)
    ensures DistinctPaths(queue[1..])
    ensures PathsIn(queue) == PathsIn(queue[1..]) + {queue[0].path} && queue[0].path !in PathsIn(queue[1..])
    ensures forall n :: n in queue[1..] ==> n in queue && n.path != queue[0].path
  {
    forall n | n in queue[1..]
      ensures n in queue && n.path != queue[0].path
    {
      var i :| 0 <= i < |queue| - 1 && queue[1..][i] == n;
      assert queue[i + 1] == n;
    }
    assert queue == [queue[0]] + queue[1..];
  }

  lemma {:induction false} HeadParent(queue: seq<FsNode>)
    requires queue != [] && NodesRooted(queue) && ParentsLater(queue)
    ensures NodesRooted(queue[1..])
    ensures var head := queue[0];
            head.Rooted() && (head.parent == null <==> head.path == []) &&
            (head.parent != null ==>
              head.parent in queue[1..] && Parent(head.path) == head.parent.path && Last(head.path) == head.name)
  {
    var head := queue[0];
    assert head in queue;
    if head.parent != null {
      assert queue[0 + 1..] == queue[1..];
      ChildPath(head.parent.path, head.name);
    }
  }

  /** The head of the queue has its parent still waiting behind it. */
  ghost predicate NodesReady(p: Primitives, s: Snapshot, done: set<Path>, queue: seq<FsNode>)
    reads queue
  {
    forall n :: n in queue ==> NodeReady(p, s, done, n.path, n.childNames, n.children)
  }

  /** A directory not packed yet, taken from the front of the queue. */
  ghost predicate AtHead(fs: Fs, node: FsNode, queue: seq<FsNode>, done: set<Path>) { node.Rooted() &&
    node.path in Directories(fs) && node.path !in done && node !in queue && DistinctPaths(queue) &&
    (node.parent == null <==> node.path == []) && (node.path != [] ==> Parent(node.path) !in done) &&
    (node.parent != null ==>
      node.parent in queue && Parent(node.path) == node.parent.path && Last(node.path) == node.name)
  }

  lemma {:induction false} HeadFacts(fs: Fs, queue: seq<FsNode>, done: set<Path>)
    requires queue != [] && NodesRooted(queue) && DistinctPaths(queue) && ParentsLater(queue)
    requires done == Directories(fs) - PathsIn(queue) && PathsIn(queue) <= Directories(fs)
    ensures AtHead(fs, queue[0], queue[1..], done)
    ensures NodesRooted(queue[1..]) && DistinctPaths(queue[1..]) && ParentsLater(queue[1..])
    ensures done + {queue[0].path} == Directories(fs) - PathsIn(queue[1..]) && PathsIn(queue[1..]) <= Directories(fs)
    ensures forall n :: n in queue[1..] ==> n in queue && n != queue[0] && n.path != queue[0].path
  {
    hide NodesRooted, DistinctPaths, ParentsLater, Directories;
    TailPaths(queue);
    TailParentsLater(queue);
    HeadParent(queue);
  }

  lemma {:induction false} QueueReady(p: Primitives, fs: Fs, s: Snapshot, s': Snapshot, done: set<Path>, log: seq<Blob>,
                                      path: Path, hash: Hash, queue: seq<FsNode>)
    requires DirectoryAdded(p, fs, s, s', done, log, path, hash) && path !in done
    requires forall n :: n in queue ==> NodeReady(p, s, done, n.path, n.childNames, n.children)
    ensures forall n :: n in queue ==>
              if path != [] && Parent(path) == n.path then
                NodeReady(p, s', done + {path}, n.path, n.childNames + [Last(path)], n.children + [hash])
              else
                NodeReady(p, s', done + {path}, n.path, n.childNames, n.children)
  {
    hide NodeReady, DirectoryAdded;
    forall n | n in queue
      ensures if path != [] && Parent(path) == n.path then
                NodeReady(p, s', done + {path}, n.path, n.childNames + [Last(path)], n.children + [hash])
              else
                NodeReady(p, s', done + {path}, n.path, n.childNames, n.children)
    {
      NodeReadyStep(p, fs, s, s', done, log, path, hash, n.path, n.childNames, n.children);
    }
  }

  lemma {:induction false} OneNodePerPath(queue: seq<FsNode>, node: FsNode)
    requires DistinctPaths(queue) && node in queue
    ensures forall n :: n in queue && n != node ==> n.path != node.path
  {
    var i :| 0 <= i < |queue| && queue[i] == node;
    forall n | n in queue && n != node
      ensures n.path != node.path
    {
      var j :| 0 <= j < |queue| && queue[j] == n;
    }
  }

  /** Adds a packed directory's hash to its parent. */
  method AddToParent(parent: FsNode, name: Name, hash: Hash, ghost p: Primitives, ghost s: Snapshot,
                     ghost done: set<Path>, ghost path: Path, ghost queue: seq<FsNode>)
    requires DistinctPaths(queue) && parent in queue && path == parent.path + [name]
    requires forall n :: n in queue ==>
               if Parent(path) == n.path then
                 NodeReady(p, s, done, n.path, n.childNames + [Last(path)], n.children + [hash])
               else NodeReady(p, s, done, n.path, n.childNames, n.children)
    modifies parent`children, parent`childNames
    ensures forall n :: n in queue ==> NodeReady(p, s, done, n.path, n.childNames, n.children)
  {
    hide NodeReady, DistinctPaths;
    OneNodePerPath(queue, parent);
    parent.children := parent.children + [hash];
    parent.childNames := parent.childNames + [name];
  }

  lemma {:induction false} DirectoryFacts(fs: Fs, path: Path)
    requires WellFormed(fs) && path in Directories(fs)
    ensures path in fs && fs[path].Directory? && (path != [] ==> |path[|path| - 1]| <= NAME_MAX_BYTES)
  {
  }

  lemma {:induction false} DirectoryAddedFacts(p: Primitives, fs: Fs, s: Snapshot, s': Snapshot, done: set<Path>,
                                               log: seq<Blob>, path: Path, hash: Hash)
    requires DirectoryAdded(p, fs, s, s', done, log, path, hash)
    ensures Packing(p, fs, s', done + {path}, done + {path}, log)
    ensures path in s'.trees && Encodable(s'.trees[path]) && hash == RootHash(p, s'.trees[path])
    ensures forall q :: q in s.trees ==> q in s'.trees && s'.trees[q] == s.trees[q]
  {
    hide Packing, RootHash;
  }

  /** Packs one directory and adds its hash to its parent. */
  method PackNode(packer: Manager, fs: Fs, rootName: Name, node: FsNode, ghost queue: seq<FsNode>, ghost s0: Snapshot,
                  ghost done: set<Path>, ghost log0: seq<Blob>, ghost omitted0: set<Path>, ghost largest: nat)
      returns (r: Result<Hash, PackfileError>, failed: nat, ghost s: Snapshot, ghost log: seq<Blob>,
               ghost omitted: set<Path>)
    requires packer.Valid() && Lawful(packer.disk.p) && WellFormed(fs) && |rootName| <= NAME_MAX_BYTES
    requires AtHead(fs, node, queue, done) && NodesReady(packer.disk.p, s0, done, [node] + queue)
    requires Packing(packer.disk.p, fs, s0, done, done, log0) && FilesAccounted(fs, s0, done, omitted0)
    requires LogOk(log0) && Accepted(packer, log0)
    modifies packer, packer.index, packer.disk, (set n | n in queue)`children, (set n | n in queue)`childNames
    ensures packer.Valid() && Grown(packer)
    ensures r.Ok? ==> LogOk(log) && Accepted(packer, log)
    ensures r.Ok? ==> Packing(packer.disk.p, fs, s, done + {node.path}, done + {node.path}, log)
    ensures r.Ok? ==> FilesAccounted(fs, s, done + {node.path}, omitted)
    ensures r.Ok? ==>
              node.path in s.trees && Encodable(s.trees[node.path]) &&
              r.value == RootHash(packer.disk.p, s.trees[node.path])
    ensures r.Ok? ==> forall q :: q in s0.trees ==> q in s.trees && s.trees[q] == s0.trees[q]
    ensures r.Ok? ==> NodesReady(packer.disk.p, s, done + {node.path}, queue)
    ensures r.Ok? && failed == 0 ==> omitted == omitted0 && packer.index.unsaved == old(packer.index.unsaved)
    ensures FilesUpTo(fs, largest) ==>
              packer.Spare() >= old(packer.Spare()) - CallsForDirectory(fs, largest) &&
              (old(packer.Spare()) >= CallsForDirectory(fs, largest) ==> r.Ok? && failed == 0)
  {
    hide FilesUpTo, CallsForDirectory, Manager.Spare, Manager.Valid, Manager.Tracked, LogOk, Disk.Complete, Accepted,
         Lawful, Packing, RootHash, WellFormed, Encodable, FilesAccounted, NodeReady, DirectoryAdded, Directories,
         DistinctPaths;
    var path := GetNodePath(node);
    DirectoryFacts(fs, path);
    assert node in [node] + queue;
    r, failed, s, log, omitted :=
      PackDirectory(packer, fs, path, if path == [] then rootName else path[|path| - 1], node.children, node.childNames,
                    s0, done, log0, omitted0, largest);
    if r.Ok? {
      QueueReady(packer.disk.p, fs, s0, s, done, log, path, r.value, queue);
      DirectoryAddedFacts(packer.disk.p, fs, s0, s, done, log, path, r.value);
      if node.parent != null {
        AddToParent(node.parent, node.name, r.value, packer.disk.p, s, done + {path}, path, queue);
      }
    }
  }

  /** Packs the directories in queue order; each adds its hash to its parent, and the root's is returned. */
  method PackFilesInDirectory(packer: Manager, fs: Fs, rootName: Name, queue0: seq<FsNode>, ghost largest: nat)
      returns (r: Result<Hash, PackfileError>, failed: nat, ghost s: Snapshot, ghost log: seq<Blob>,
               ghost omitted: set<Path>)
    requires packer.Valid() && Lawful(packer.disk.p) && WellFormed(fs) && |rootName| <= NAME_MAX_BYTES
    requires ProcessingOk(fs, queue0) && PathsIn(queue0) == Directories(fs)
    requires forall n :: n in queue0 ==> n.children == [] && n.childNames == []
    modifies packer, packer.index, packer.disk, set n | n in queue0
    ensures packer.Valid() && Grown(packer)
    ensures r.Ok? ==> LogOk(log) && Accepted(packer, log)
    ensures r.Ok? ==> Packing(packer.disk.p, fs, s, Directories(fs), Directories(fs), log)
    ensures r.Ok? ==> FilesAccounted(fs, s, Directories(fs), omitted)
    ensures r.Ok? ==> [] in s.trees && Encodable(s.trees[[]]) && r.value == RootHash(packer.disk.p, s.trees[[]])
    ensures r.Ok? && failed == 0 ==> omitted == {} && packer.index.unsaved == old(packer.index.unsaved)
    ensures FilesUpTo(fs, largest) ==>
              packer.Spare() >= old(packer.Spare()) - |queue0| * CallsForDirectory(fs, largest) &&
              (old(packer.Spare()) >= |queue0| * CallsForDirectory(fs, largest) ==> r.Ok? && failed == 0)
  {
    hide FilesUpTo, CallsForDirectory, Manager.Spare;
    hide Manager.Valid, Manager.Tracked, LogOk, Disk.Complete, Accepted, Lawful, Packing, RootHash, WellFormed,
         Encodable, FilesAccounted, NodeReady, DirectoryAdded, Directories, PathsIn, NodesRooted, DistinctPaths,
         ParentsLater;
    var queue := queue0;
    var rootTreeHash: Hash := seq(32, _ => 0);
    failed, s, log, omitted := 0, Snapshot(map[], map[], map[]), [], {};
    ghost var done: set<Path> := {};
    NothingPacked(packer, fs, queue0);
    while queue != []
      invariant forall n :: n in queue ==> n in queue0
      invariant NodesRooted(queue) && DistinctPaths(queue) && ParentsLater(queue)
      invariant done == Directories(fs) - PathsIn(queue) && PathsIn(queue) <= Directories(fs)
      invariant packer.Valid() && Grown(packer)
      invariant LogOk(log) && Accepted(packer, log)
      invariant Packing(packer.disk.p, fs, s, done, done, log) && FilesAccounted(fs, s, done, omitted)
      invariant NodesReady(packer.disk.p, s, done, queue)
      invariant [] in done ==>
                  [] in s.trees && Encodable(s.trees[[]]) && rootTreeHash == RootHash(packer.disk.p, s.trees[[]])
      invariant failed == 0 ==> omitted == {} && packer.index.unsaved == old(packer.index.unsaved)
      invariant |queue| <= |queue0|
      invariant FilesUpTo(fs, largest) ==>
                  packer.Spare() >= old(packer.Spare()) - (|queue0| - |queue|) * CallsForDirectory(fs, largest) &&
                  (old(packer.Spare()) >= |queue0| * CallsForDirectory(fs, largest) ==> failed == 0)
      decreases |queue|
    {
      var node := queue[0];
      OneMore(|queue0| - |queue|, |queue0|, CallsForDirectory(fs, largest));
      HeadFacts(fs, queue, done);
      queue := queue[1..];
      var hash, failures; ghost var s', omitted';
      hash, failures, s', log, omitted' := PackNode(packer, fs, rootName, node, queue, s, done, log, omitted, largest);
      failed := failed + failures;
      if hash.Err? {
        return Err(hash.error), failed, s, log, omitted;
      }
      s, omitted, done := s', omitted', done + {node.path};
      if node.parent == null {
        rootTreeHash := hash.value;
      }
    }
    AllPacked(fs, done);
    return Ok(rootTreeHash), failed, s, log, omitted;
  }

  lemma {:induction false} NothingPacked(packer: Manager, fs: Fs, queue: seq<FsNode>)
    requires ProcessingOk(fs, queue) && PathsIn(queue) == Directories(fs)
    requires forall n :: n in queue ==> n.children == [] && n.childNames == []
    ensures var s := Snapshot(map[], map[], map[]);
            LogOk([]) && Accepted(packer, []) &&
            Packing(packer.disk.p, fs, s, {}, {}, []) && FilesAccounted(fs, s, {}, {}) &&
            forall n :: n in queue ==> NodeReady(packer.disk.p, s, {}, n.path, n.childNames, n.children)
    ensures NodesRooted(queue) && DistinctPaths(queue) && ParentsLater(queue)
  {
    hide Manager.Tracked;
  }

  lemma {:induction false} AllPacked(fs: Fs, done: set<Path>)
    requires WellFormed(fs) && done == Directories(fs) - PathsIn([])
    ensures done == Directories(fs) && [] in done
  {
  }
}
