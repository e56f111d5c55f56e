/** Finding all directories of a tree and queueing them so that each comes before its ancestors. */
module DirWalk {
  import opened ByteStrings
  import opened Primitives
  import opened Trees
  import opened Snapshots

  class FsNode {
    const parent: FsNode?
    /** Empty for the root. */
    const name: Name
    ghost const path: Path
    var children: seq<Hash>
    /** Names of the subdirectories whose hashes are in `children`. */
    ghost var childNames: seq<Name>

    constructor (parent: FsNode?, name: Name)
      ensures this.parent == parent && this.name == name
      ensures path == if parent == null then [] else parent.path + [name]
      ensures children == [] && childNames == []
    {
      this.parent, this.name := parent, name;
      this.path := if parent == null then [] else parent.path + [name];
      children, childNames := [], [];
    }

    /** The names from the root down to this node spell its path. */
    ghost predicate Rooted()
      decreases |path|
    {
      if parent == null then path == [] && name == []
      else name != [] && path == parent.path + [name] && parent.Rooted()
    }
  }

  /** Joining an empty component, as the root's is, changes nothing. */
  function Component(name: Name): Path {
    if name == [] then [] else [name]
  }

  ghost function JoinedFromLast(components: seq<Name>): Path {
    if components == [] then []
    else Component(components[|components| - 1]) + JoinedFromLast(components[..|components| - 1])
  }

  lemma {:induction false} JoinedSnoc(components: seq<Name>, name: Name)
    ensures JoinedFromLast(components + [name]) == Component(name) + JoinedFromLast(components)
  {
    assert (components + [name])[..|components|] == components;
  }

  /** The names from a node up to the root. */
  method CollectNames(node: FsNode) returns (components: seq<Name>)
    requires node.Rooted()
    ensures JoinedFromLast(components) == node.path
  {
    hide JoinedFromLast;
    components := [node.name];
    JoinedSnoc([], node.name);
    assert [] + [node.name] == components;
    NothingJoined();
    var at: FsNode := node;
    while at.parent != null
      invariant at.Rooted()
      invariant node.path == (if at.parent == null then [] else at.parent.path) + JoinedFromLast(components)
      decreases |at.path|
    {
      ghost var joined := JoinedFromLast(components);
      at := at.parent;
      JoinedSnoc(components, at.name);
      Assoc(if at.parent == null then [] else at.parent.path, Component(at.name), joined);
      components := components + [at.name];
    }
  }

  lemma {:induction false} NothingJoined()
    ensures JoinedFromLast([]) == []
  {
  }

  /** Joins the collected names the other way round. */
  method GetNodePath(node: FsNode) returns (path: Path)
    requires node.Rooted()
    ensures path == node.path
  {
    hide JoinedFromLast, Component;
    var components := CollectNames(node);
    path := [];
    var i := |components|;
    assert components[..i] == components;
    while i > 0
      invariant 0 <= i <= |components|
      invariant path + JoinedFromLast(components[..i]) == node.path
    {
      JoinedSnoc(components[..i - 1], components[i - 1]);
      assert components[..i - 1] + [components[i - 1]] == components[..i];
      Assoc(path, Component(components[i - 1]), JoinedFromLast(components[..i - 1]));
      i := i - 1;
      path := path + Component(components[i]);
    }
    NothingJoined();
    assert components[..0] == [];
  }

  ghost function PathsIn(queue: seq<FsNode>): set<Path> {
    set n | n in queue :: n.path
  }

  ghost predicate DistinctPaths(queue: seq<FsNode>) {
    forall i, j :: 0 <= i < j < |queue| ==> queue[i].path != queue[j].path
  }

  /** Every node's parent stands later in the queue. */
  ghost predicate ParentsLater(queue: seq<FsNode>) {
    forall i :: 0 <= i < |queue| && queue[i].parent != null ==> queue[i].parent in queue[i + 1..]
  }

  ghost predicate NodesRooted(queue: seq<FsNode>) {
    forall n :: n in queue ==> n.Rooted()
  }

  /** In such a queue every directory is ahead of all its ancestors. */
  lemma {:induction false} AncestorsLater(queue: seq<FsNode>, i: nat, k: nat) returns (j: nat)
    requires NodesRooted(queue) && ParentsLater(queue)
    requires i < |queue| && k < |queue[i].path|
    ensures i < j < |queue| && queue[j].path == queue[i].path[..k]
    decreases |queue[i].path|
  {
    assert queue[i] in queue;
    var parent := queue[i].parent;
    var m :| 0 <= m < |queue| - i - 1 && queue[i + 1..][m] == parent;
    j := i + 1 + m;
    if k < |queue[i].path| - 1 {
      j := AncestorsLater(queue, j, k);
    }
  }

  // ----- Browsing -----

  /** A directory has been found once its parent is scanned, or is being scanned and has listed it. */
  ghost predicate Found(q: Path, scanned: set<Path>, current: Path, listed: seq<Name>)
    requires q != []
  {
    Parent(q) in scanned || (Parent(q) == current && Last(q) in listed)
  }

  /** A processing queue: one node per path, all directories, the root among them, parents later. */
  ghost predicate ProcessingOk(fs: Fs, processing: seq<FsNode>) {
    NodesRooted(processing) && DistinctPaths(processing) && ParentsLater(processing) &&
    [] in PathsIn(processing) && PathsIn(processing) <= Directories(fs)
  }

  ghost predicate AllFound(fs: Fs, paths: set<Path>, scanned: set<Path>, current: Path, listed: seq<Name>) {
    forall q :: q in Directories(fs) && q != [] ==> (q in paths <==> Found(q, scanned, current, listed))
  }

  /** State of the walk while `current` is being scanned and has listed these names so far. */
  ghost predicate Browsing(fs: Fs, processing: seq<FsNode>, browsing: seq<(FsNode, Path)>, scanned: set<Path>,
                           current: Path, listed: seq<Name>)
  {
    ProcessingOk(fs, processing) && AllFound(fs, PathsIn(processing), scanned, current, listed) &&
    BrowsingQueueOk(processing, browsing, scanned, current)
  }

  /** The queued directories are exactly those found and neither scanned nor being scanned, once each. */
  ghost predicate BrowsingQueueOk(processing: seq<FsNode>, browsing: seq<(FsNode, Path)>, scanned: set<Path>,
                                  current: Path)
  {
    scanned <= PathsIn(processing) &&
    (forall b :: b in browsing ==> b.0 in processing && b.1 == b.0.path && b.1 !in scanned && b.1 != current) &&
    (forall i, j :: 0 <= i < j < |browsing| ==> browsing[i].1 != browsing[j].1) &&
    forall q :: q in PathsIn(processing) ==> q in scanned || q == current || exists b :: b in browsing && b.1 == q
  }

  lemma {:induction false} ProcessingFront(fs: Fs, processing: seq<FsNode>, node: FsNode)
    requires ProcessingOk(fs, processing)
    requires node.Rooted() && node.parent in processing && node.path !in PathsIn(processing) &&
             node.path in Directories(fs)
    ensures ProcessingOk(fs, [node] + processing)
    ensures PathsIn([node] + processing) == PathsIn(processing) + {node.path}
  {
    var processing' := [node] + processing;
    forall i | 0 <= i < |processing'| && processing'[i].parent != null
      ensures processing'[i].parent in processing'[i + 1..]
    {
      assert processing'[i + 1..] == if i == 0 then processing else processing[i..];
    }
    forall i | 0 <= i < |processing|
      ensures processing[i].path in PathsIn(processing)
    {
    }
  }

  lemma {:induction false} FoundMore(fs: Fs, paths: set<Path>, scanned: set<Path>, current: Path, listed: seq<Name>,
                                     name: Name)
    requires AllFound(fs, paths, scanned, current, listed)
    ensures AllFound(fs, paths + {current + [name]}, scanned, current, listed + [name])
    ensures name !in listed && current !in scanned && current + [name] in Directories(fs) ==> current + [name] !in paths
    ensures current + [name] !in Directories(fs) ==> AllFound(fs, paths, scanned, current, listed + [name])
  {
    var q := current + [name];
    ChildPath(current, name);
    forall d | d in Directories(fs) && d != []
      ensures Found(d, scanned, current, listed + [name]) <==> Found(d, scanned, current, listed) || d == q
    {
      if Parent(d) == current && Last(d) == name {
        assert d == q;
      }
    }
  }

  lemma {:induction false} FoundDirectory(fs: Fs, processing: seq<FsNode>, browsing: seq<(FsNode, Path)>,
                                          scanned: set<Path>, current: FsNode, listed: seq<Name>, node: FsNode,
                                          name: Name)
    requires Browsing(fs, processing, browsing, scanned, current.path, listed)
    requires current in processing && current.path !in scanned && name !in listed
    requires node.parent == current && node.path == current.path + [name] && node.Rooted()
    requires node.path in Directories(fs)
    ensures Browsing(fs, [node] + processing, [(node, node.path)] + browsing, scanned, current.path, listed + [name])
  {
    hide ProcessingOk, AllFound;
    FoundMore(fs, PathsIn(processing), scanned, current.path, listed, name);
    ProcessingFront(fs, processing, node);
    FoundQueued(processing, browsing, scanned, current, node);
  }

  lemma {:induction false} FoundQueued(processing: seq<FsNode>, browsing: seq<(FsNode, Path)>, scanned: set<Path>,
                                       current: FsNode, node: FsNode)
    requires BrowsingQueueOk(processing, browsing, scanned, current.path)
    requires node.path !in PathsIn(processing) && node.path != current.path && node.path !in scanned
    ensures BrowsingQueueOk([node] + processing, [(node, node.path)] + browsing, scanned, current.path)
  {
    var browsing' := [(node, node.path)] + browsing;
    forall i, j | 0 <= i < j < |browsing'|
      ensures browsing'[i].1 != browsing'[j].1
    {
      assert browsing'[j] in browsing;
    }
    forall q | q in PathsIn([node] + processing)
      ensures q in scanned || q == current.path || exists b :: b in browsing' && b.1 == q
    {
      if q == node.path {
        assert (node, node.path) in browsing';
      } else if q !in scanned && q != current.path {
        var b :| b in browsing && b.1 == q;
        assert b in browsing';
      }
    }
  }

  /** State of the walk between two directories. */
  ghost predicate Walking(fs: Fs, processing: seq<FsNode>, browsing: seq<(FsNode, Path)>, scanned: set<Path>) {
    ProcessingOk(fs, processing) &&
    (forall q :: q in Directories(fs) && q != [] ==> (q in PathsIn(processing) <==> Parent(q) in scanned)) &&
    scanned <= PathsIn(processing) &&
    (forall b :: b in browsing ==> b.0 in processing && b.1 == b.0.path && b.1 !in scanned) &&
    (forall i, j :: 0 <= i < j < |browsing| ==> browsing[i].1 != browsing[j].1) &&
    forall q :: q in PathsIn(processing) ==> q in scanned || exists b :: b in browsing && b.1 == q
  }

  lemma {:induction false} WalkStarts(fs: Fs, root: FsNode)
    requires WellFormed(fs) && root.Rooted() && root.parent == null
    ensures Walking(fs, [root], [(root, [])], {})
  {
    var browsing: seq<(FsNode, Path)> := [(root, [])];
    assert browsing[0] in browsing;
    assert PathsIn([root]) == {[]};
  }

  lemma {:induction false} ProcessingFacts(fs: Fs, processing: seq<FsNode>)
    requires ProcessingOk(fs, processing)
    ensures PathsIn(processing) <= Directories(fs)
  {
  }

  lemma {:induction false} WalkScans(fs: Fs, processing: seq<FsNode>, browsing: seq<(FsNode, Path)>, scanned: set<Path>)
    requires Walking(fs, processing, browsing, scanned) && browsing != []
    ensures var (current, path) := browsing[0];
            current in processing && current.path == path && path in Directories(fs) && path !in scanned &&
            Browsing(fs, processing, browsing[1..], scanned, path, [])
  {
    hide ProcessingOk, Directories;
    ProcessingFacts(fs, processing);
    var b := browsing[0];
    assert b in browsing;
    assert b.1 in PathsIn(processing);
    assert browsing == [b] + browsing[1..];
    forall q | q in PathsIn(processing)
      ensures q in scanned || q == b.1 || exists b' :: b' in browsing[1..] && b'.1 == q
    {
      if q !in scanned && q != b.1 {
        var b' :| b' in browsing && b'.1 == q;
        assert b' in browsing[1..];
      }
    }
    forall b' | b' in browsing[1..]
      ensures b'.1 != b.1
    {
      var i :| 0 <= i < |browsing| - 1 && browsing[1..][i] == b';
      assert browsing[i + 1] == b';
    }
  }

  lemma {:induction false} WalkScanned(fs: Fs, processing: seq<FsNode>, browsing: seq<(FsNode, Path)>,
                                       scanned: set<Path>, current: Path, names: seq<Name>)
    requires Browsing(fs, processing, browsing, scanned, current, names)
    requires current in PathsIn(processing)
    requires forall n :: n in names <==> current + [n] in fs
    ensures Walking(fs, processing, browsing, scanned + {current})
  {
    hide ProcessingOk;
    forall q | q in Directories(fs) && q != []
      ensures q in PathsIn(processing) <==> Parent(q) in scanned + {current}
    {
      if Parent(q) == current {
        assert q == current + [Last(q)];
      }
    }
  }

  lemma {:induction false} WalkReaches(fs: Fs, processing: seq<FsNode>, scanned: set<Path>, q: Path)
    requires WellFormed(fs) && Walking(fs, processing, [], scanned)
    requires q in Directories(fs)
    ensures q in PathsIn(processing)
    decreases |q|
  {
    if q != [] {
      WalkReaches(fs, processing, scanned, Parent(q));
    }
  }

  lemma {:induction false} NewNodeRooted(fs: Fs, processing: seq<FsNode>, current: FsNode, node: FsNode)
    requires ProcessingOk(fs, processing) && current in processing && WellFormed(fs)
    requires node.parent == current && node.path == current.path + [node.name]
    requires node.path in fs
    ensures node.Rooted()
  {
    ChildPath(current.path, node.name);
  }

  /** Lists one directory; each subdirectory goes to the front of both queues. */
  method ScanDirectory(fs: Fs, current: FsNode, currentPath: Path, processing0: seq<FsNode>,
                       browsing0: seq<(FsNode, Path)>, ghost scanned: set<Path>)
      returns (processing: seq<FsNode>, browsing: seq<(FsNode, Path)>)
    requires WellFormed(fs) && current in processing0
    requires currentPath == current.path && currentPath in Directories(fs) && currentPath !in scanned
    requires Browsing(fs, processing0, browsing0, scanned, currentPath, [])
    ensures Walking(fs, processing, browsing, scanned + {currentPath})
    ensures forall n :: n in processing ==> n in processing0 || (fresh(n) && n.children == [] && n.childNames == [])
  {
    hide ProcessingOk, AllFound, BrowsingQueueOk;
    processing, browsing := processing0, browsing0;
    var names := ListDir(fs, currentPath);
    var i := 0;
    assert names[..0] == [];
    while i < |names|
      invariant 0 <= i <= |names|
      invariant current in processing
      invariant Browsing(fs, processing, browsing, scanned, currentPath, names[..i])
      invariant forall n :: n in processing ==> n in processing0 || (fresh(n) && n.children == [] && n.childNames == [])
    {
      hide Browsing, WellFormed;
      var path := currentPath + [names[i]];
      assert names[..i + 1] == names[..i] + [names[i]];
      if fs[path].Directory? {
        var node := new FsNode(current, names[i]);
        FoundNode(fs, processing, browsing, scanned, current, names[..i], node, names[i]);
        processing := [node] + processing;
        browsing := [(node, path)] + browsing;
      } else {
        FoundOther(fs, processing, browsing, scanned, currentPath, names[..i], names[i]);
      }
      i := i + 1;
    }
    assert names[..i] == names;
    WalkScanned(fs, processing, browsing, scanned, currentPath, names);
  }

  lemma {:induction false} FoundNode(fs: Fs, processing: seq<FsNode>, browsing: seq<(FsNode, Path)>, scanned: set<Path>,
                                     current: FsNode, listed: seq<Name>, node: FsNode, name: Name)
    requires WellFormed(fs)
    requires Browsing(fs, processing, browsing, scanned, current.path, listed)
    requires current in processing && current.path !in scanned && name !in listed
    requires node.parent == current && node.name == name && node.path == current.path + [name]
    requires node.path in fs && fs[node.path].Directory?
    ensures Browsing(fs, [node] + processing, [(node, node.path)] + browsing, scanned, current.path, listed + [name])
  {
    hide AllFound, BrowsingQueueOk;
    NewNodeRooted(fs, processing, current, node);
    FoundDirectory(fs, processing, browsing, scanned, current, listed, node, name);
  }

  lemma {:induction false} FoundOther(fs: Fs, processing: seq<FsNode>, browsing: seq<(FsNode, Path)>,
                                      scanned: set<Path>, current: Path, listed: seq<Name>, name: Name)
    requires Browsing(fs, processing, browsing, scanned, current, listed)
    requires current + [name] in fs && !fs[current + [name]].Directory?
    ensures Browsing(fs, processing, browsing, scanned, current, listed + [name])
  {
    hide AllFound, BrowsingQueueOk, ProcessingOk;
    FoundMore(fs, PathsIn(processing), scanned, current, listed, name);
  }

  lemma {:induction false} WalkDone(fs: Fs, processing: seq<FsNode>, scanned: set<Path>)
    requires WellFormed(fs) && Walking(fs, processing, [], scanned)
    ensures ProcessingOk(fs, processing) && PathsIn(processing) == Directories(fs)
  {
    forall q | q in Directories(fs)
      ensures q in PathsIn(processing)
    {
      WalkReaches(fs, processing, scanned, q);
    }
  }

  lemma {:induction false} ScanMeasure(all: set<Path>, scanned: set<Path>, q: Path)
    requires q in all && q !in scanned
    ensures |all - (scanned + {q})| < |all - scanned|
  {
    assert all - (scanned + {q}) == (all - scanned) - {q};
  }

  /** Walks the tree, putting every directory found in front of those found before it. */
  method BrowseDirTree(fs: Fs, root: FsNode) returns (processing: seq<FsNode>)
    requires WellFormed(fs)
    requires root.Rooted() && root.parent == null && root.children == [] && root.childNames == []
    ensures ProcessingOk(fs, processing)
    ensures PathsIn(processing) == Directories(fs)
    ensures forall n :: n in processing ==> (n == root || fresh(n)) && n.children == [] && n.childNames == []
  {
    hide Walking, Browsing, WellFormed, ProcessingOk, Directories, PathsIn;
    processing := [root];
    var browsing: seq<(FsNode, Path)> := [(root, [])];
    ghost var scanned: set<Path> := {};
    WalkStarts(fs, root);
    while browsing != []
      invariant Walking(fs, processing, browsing, scanned)
      invariant forall n :: n in processing ==> (n == root || fresh(n)) && n.children == [] && n.childNames == []
      decreases |Directories(fs) - scanned|
    {
      var (current, currentPath) := browsing[0];
      WalkScans(fs, processing, browsing, scanned);
      ScanMeasure(Directories(fs), scanned, currentPath);
      processing, browsing := ScanDirectory(fs, current, currentPath, processing, browsing[1..], scanned);
      scanned := scanned + {currentPath};
    }
    WalkDone(fs, processing, scanned);
  }
}
