/** Handing file chunks and trees to the packfile manager. The ghost log lists every accepted blob in the
    order in which it was hashed, so that a tree always comes after everything it mentions. */
module TreePacking {
  import opened Wrappers
  import opened ByteStrings
  import opened Primitives
  import opened PackfileFormat
  import opened Disks
  import opened BlobIndices
  import opened Packfiles
  import opened Trees
  import opened Fetching
  import opened Snapshots

  /** The hashes of the trees in a log. */
  ghost function TreeHashes(log: seq<Blob>): set<Hash> {
    set b | b in log && b.kind == TreeBlob :: b.hash
  }

  /** The hashes that the bytes of a tree blob lead to, as trees. */
  ghost function BlobLinks(b: Blob): set<Hash> {
    if b.kind != TreeBlob then {}
    else
      match DecodeTree(b.data)
      case None => {}
      case Some(t) => TreeLinks(t)
  }

  /** Such a piece of a tree of this kind is in the log. */
  ghost predicate PieceLogged(log: seq<Blob>, hash: Hash, kind: TreeKind) {
    exists b ::
      b in log && b.kind == TreeBlob && b.hash == hash &&
      DecodeTree(b.data).Some? && DecodeTree(b.data).value.kind == kind
  }

  ghost predicate NextLogged(b: Blob, log: seq<Blob>) {
    b.kind == TreeBlob && DecodeTree(b.data).Some? && DecodeTree(b.data).value.nextSibling.Some? ==>
      PieceLogged(log, DecodeTree(b.data).value.nextSibling.value, DecodeTree(b.data).value.kind)
  }

  ghost predicate LogOk(log: seq<Blob>) {
    forall i :: 0 <= i < |log| ==> BlobLinks(log[i]) <= TreeHashes(log[..i]) && NextLogged(log[i], log[..i])
  }

  lemma {:induction false} LogSnoc(log: seq<Blob>, b: Blob)
    requires LogOk(log) && BlobLinks(b) <= TreeHashes(log) && NextLogged(b, log)
    ensures LogOk(log + [b])
    ensures TreeHashes(log) <= TreeHashes(log + [b]) && (b.kind == TreeBlob ==> b.hash in TreeHashes(log + [b]))
  {
    hide BlobLinks, NextLogged;
    var log' := log + [b];
    forall i | 0 <= i < |log'|
      ensures BlobLinks(log'[i]) <= TreeHashes(log'[..i]) && NextLogged(log'[i], log'[..i])
    {
      assert log'[..i] == log[..i];
    }
  }

  /** A tree's pieces in the order they are serialized: the last first. */
  ghost function LogChain(p: Primitives, t: Tree): (blobs: seq<Blob>)
    requires Encodable(t)
    ensures |blobs| == |Chain(p, t)|
    ensures forall b :: b in Chain(p, t) <==> b in blobs
    decreases |t.children|
  {
    if |t.children| <= TREE_BLOB_MAX_CHILDREN then [TreeToBlob(p, t)]
    else
      var rest := t.(children := t.children[TREE_BLOB_MAX_CHILDREN..], nextSibling := None);
      LogChain(p, rest) +
      [TreeToBlob(p, t.(children := t.children[..TREE_BLOB_MAX_CHILDREN], nextSibling := Some(Chain(p, rest)[0].hash)))]
  }

  lemma {:induction false} PieceLinks(p: Primitives, t: Tree)
    requires Encodable(t)
    ensures BlobLinks(TreeToBlob(p, t)) == TreeLinks(t)
    ensures DecodeTree(TreeToBlob(p, t).data) == Some(t)
  {
    hide DecodeTree, EncodeTree;
    TreeRoundTrip(t);
  }

  /** The first piece of a tree is of its kind. */
  lemma {:induction false} HeadLogged(p: Primitives, log: seq<Blob>, t: Tree)
    requires Encodable(t)
    requires Chain(p, t)[0] in log
    ensures PieceLogged(log, RootHash(p, t), t.kind)
  {
    hide DecodeTree, EncodeTree;
    if |t.children| <= TREE_BLOB_MAX_CHILDREN {
      PieceLinks(p, t);
    } else {
      var rest := Chain(p, t.(children := t.children[TREE_BLOB_MAX_CHILDREN..], nextSibling := None));
      PieceLinks(p, t.(children := t.children[..TREE_BLOB_MAX_CHILDREN], nextSibling := Some(rest[0].hash)));
    }
  }

  /** Logging a tree keeps the log in order, if the children of a directory are logged. */
  lemma {:induction false} LogTree(p: Primitives, log: seq<Blob>, t: Tree)
    requires Encodable(t) && t.nextSibling.None?
    requires LogOk(log) && (t.kind.DirTree? ==> forall c :: c in t.children ==> c in TreeHashes(log))
    ensures LogOk(log + LogChain(p, t)) && RootHash(p, t) in TreeHashes(log + LogChain(p, t))
    ensures TreeHashes(log) <= TreeHashes(log + LogChain(p, t))
    decreases |t.children|
  {
    hide BlobLinks, LogOk, TreeToBlob, PieceLogged, DecodeTree;
    if |t.children| <= TREE_BLOB_MAX_CHILDREN {
      PieceLinks(p, t);
      LogSnoc(log, TreeToBlob(p, t));
      IsTreeBlob(p, t);
    } else {
      var rest := t.(children := t.children[TREE_BLOB_MAX_CHILDREN..], nextSibling := None);
      var first := t.(children := t.children[..TREE_BLOB_MAX_CHILDREN], nextSibling := Some(Chain(p, rest)[0].hash));
      LogTree(p, log, rest);
      PieceLinks(p, first);
      IsTreeBlob(p, first);
      assert Chain(p, rest)[0] in log + LogChain(p, rest);
      HeadLogged(p, log + LogChain(p, rest), rest);
      LogSnoc(log + LogChain(p, rest), TreeToBlob(p, first));
      Assoc(log, LogChain(p, rest), [TreeToBlob(p, first)]);
    }
  }

  lemma {:induction false} IsTreeBlob(p: Primitives, t: Tree)
    requires Encodable(t)
    ensures TreeToBlob(p, t).kind == TreeBlob
  {
  }

  /** Every logged blob has been offered and its hash is tracked. */
  ghost predicate Accepted(packer: Manager, log: seq<Blob>)
    reads packer, packer.index, packer.disk
  {
    forall b :: b in log ==> b in packer.disk.offered && b.hash in packer.Tracked()
  }

  /** Every blob goes under the hash of its data. */
  ghost predicate Hashed(p: Primitives, offered: set<Blob>) {
    forall b :: b in offered ==> b.hash == p.blake3(b.data)
  }

  /** The manager's state only grows: nothing tracked, offered or written is forgotten. */
  twostate predicate Grown(packer: Manager)
    reads packer, packer.index, packer.disk, packer.index.disk
  {
    old(packer.disk.history) <= packer.disk.history &&
    old(packer.disk.offered) <= packer.disk.offered &&
    old(packer.Tracked()) <= packer.Tracked() &&
    old(packer.index.unsaved) <= packer.index.unsaved &&
    (old(packer.disk.Complete()) ==> packer.disk.Complete()) &&
    (Hashed(packer.disk.p, old(packer.disk.offered)) ==> Hashed(packer.disk.p, packer.disk.offered)) &&
    (old(packer.disk.Reliable() && packer.index.Trim()) ==> packer.disk.Reliable() && packer.index.Trim())
  }

  /** Adds one blob, as far as its caller is concerned. */
  method AddOne(packer: Manager, blob: Blob) returns (r: Result<Option<nat>, PackfileError>)
    requires packer.Valid() && blob.hash == packer.disk.p.blake3(blob.data)
    modifies packer, packer.index, packer.disk
    ensures packer.Valid() && Grown(packer)
    ensures GoesOn(r) ==> Accepted(packer, [blob]) && packer.index.unsaved == old(packer.index.unsaved)
    ensures r == Err(BlobTooLarge) <==> |blob.data| > BLOB_MAX
    ensures packer.Spare() >= old(packer.Spare()) - 1 &&
            (old(packer.Spare()) >= 1 ==> GoesOn(r) || r == Err(BlobTooLarge))
  {
    hide NewFiles, SizesOf, Total, OverLimit, Manager.Valid, Manager.Tracked, Manager.KnownSet, Manager.Spare,
         Disk.Complete, Plain, BlobIndex.Trim, BlobIndex.Bounded;
    NothingQueued();
    ghost var failure, ids;
    r, failure, ids := packer.AddBlob(blob);
  }

  function PhaseNumber(phase: AddPhase): nat {
    match phase
    case Checking => 0
    case Queueing => 1
    case Measuring => 2
    case Writing => 3
  }

  /** The blob has been queued, or was known. */
  predicate Entered(progress: AddProgress) {
    if progress.Going? then PhaseNumber(progress.phase) >= 2 else GoesOn(progress.reply)
  }

  predicate Refused(progress: AddProgress) {
    progress.Replied? && !GoesOn(progress.reply)
  }

  method CheckStep(packer: Manager, blob: Blob) returns (progress: AddProgress)
    requires packer.Valid() && blob.hash == packer.disk.p.blake3(blob.data) && |blob.data| <= BLOB_MAX
    modifies packer, packer.index, packer.disk
    ensures packer.Valid() && Grown(packer) && packer.index.unsaved == old(packer.index.unsaved)
    ensures progress == Going(Queueing) || (progress == Replied(Ok(None)) && Accepted(packer, [blob]))
    ensures packer.Spare() >= old(packer.Spare())
  {
    hide Manager.Valid, Manager.Tracked, Manager.KnownSet, Manager.Spare, Disk.Complete, Plain, BlobIndex.Trim,
         BlobIndex.Bounded;
    packer.KnownIsTracked();
    progress := packer.CheckBlob(blob);
  }

  method QueueStep(packer: Manager, blob: Blob) returns (progress: AddProgress)
    requires packer.Valid() && blob.hash == packer.disk.p.blake3(blob.data) && |blob.data| <= BLOB_MAX
    modifies packer, packer.index, packer.disk
    ensures packer.Valid() && Grown(packer) && packer.index.unsaved == old(packer.index.unsaved)
    ensures progress == Replied(Err(GetrandomError)) || (progress == Going(Measuring) && Accepted(packer, [blob]))
    ensures packer.Spare() >= old(packer.Spare()) - 1 && (old(packer.Spare()) >= 1 ==> progress.Going?)
  {
    hide Manager.Valid, Manager.Tracked, Manager.KnownSet, Manager.Spare, Disk.Complete, Plain, BlobIndex.Trim,
         BlobIndex.Bounded;
    progress := packer.QueueBlob(blob);
  }

  method WriteStep(packer: Manager) returns (progress: AddProgress)
    requires packer.Valid()
    modifies packer, packer.index, packer.disk
    ensures packer.Valid() && Grown(packer) && progress.Replied?
    ensures GoesOn(progress.reply) ==> packer.index.unsaved == old(packer.index.unsaved)
    ensures progress.reply != Err(BlobTooLarge)
    ensures packer.Spare() >= old(packer.Spare()) && (old(packer.Spare()) >= 0 ==> GoesOn(progress.reply))
  {
    hide NewFiles, SizesOf, Total, OverLimit, Manager.Valid, Manager.Tracked, Manager.KnownSet, Manager.Spare,
         Disk.Complete, Plain, BlobIndex.Trim, BlobIndex.Bounded;
    hide Concat, Fresh, AddedPacks, GreedyBatches, FailureOk, Reports, BelowThresholds, Unwritten, Hashed,
         Disk.Reliable, Batch;
    NothingQueued();
    var written; ghost var ids, batches, failure;
    written, ids, batches, failure := packer.WritePackfiles(true);
    progress := Replied(if written.Ok? then Ok(Some(written.value)) else Err(written.error));
  }

  /** One section of add_blob, as far as its caller is concerned. Others may act before the next one. */
  method AddStep(packer: Manager, blob: Blob, phase: AddPhase) returns (progress: AddProgress)
    requires packer.Valid() && blob.hash == packer.disk.p.blake3(blob.data) && |blob.data| <= BLOB_MAX
    requires PhaseNumber(phase) >= 2 ==> Accepted(packer, [blob])
    modifies packer, packer.index, packer.disk
    ensures packer.Valid() && Grown(packer)
    ensures progress.Going? ==> PhaseNumber(progress.phase) > PhaseNumber(phase)
    ensures phase.Queueing? ==> Refused(progress) || progress == Going(Measuring)
    ensures Entered(progress) ==> Accepted(packer, [blob])
    ensures Refused(progress) ==> progress.reply.error != BlobTooLarge
    ensures !Refused(progress) ==> packer.index.unsaved == old(packer.index.unsaved)
    ensures packer.Spare() >= old(packer.Spare()) - if phase.Queueing? then 1 else 0
    ensures old(packer.Spare()) >= (if phase.Queueing? then 1 else 0) ==> !Refused(progress)
  {
    hide Manager.Valid, Manager.Tracked, Manager.Spare, Disk.Complete, BlobIndex.Trim, Manager.KnownSet;
    match phase {
      case Checking =>
        progress := CheckStep(packer, blob);
      case Queueing =>
        progress := QueueStep(packer, blob);
      case Measuring =>
        progress := packer.MeasureQueue();
      case Writing =>
        progress := WriteStep(packer);
    }
  }

  lemma {:induction false} AcceptedLog(p: Primitives, packer: Manager, log: seq<Blob>, t: Tree)
    requires Encodable(t) && Accepted(packer, log) && Accepted(packer, Chain(p, t))
    ensures Accepted(packer, log + LogChain(p, t))
  {
    hide Chain, LogChain, Manager.Tracked;
  }

  /** Adds the pieces of a tree from the first to the last. */
  method AddPiecesOfTree(packer: Manager, blobs: seq<Blob>) returns (r: Result<(), PackfileError>)
    requires packer.Valid() && forall b :: b in blobs ==> |b.data| <= BLOB_MAX && b.hash == packer.disk.p.blake3(b.data)
    modifies packer, packer.index, packer.disk
    ensures packer.Valid() && Grown(packer)
    ensures r.Ok? ==> Accepted(packer, blobs) && packer.index.unsaved == old(packer.index.unsaved)
    ensures r.Err? ==> r.error != BlobTooLarge
    ensures packer.Spare() >= old(packer.Spare()) - |blobs| && (old(packer.Spare()) >= |blobs| ==> r.Ok?)
  {
    hide Manager.Valid, Manager.Tracked, Manager.Spare, Disk.Complete;
    var i := 0;
    while i < |blobs|
      invariant 0 <= i <= |blobs|
      invariant packer.Valid() && Grown(packer)
      invariant Accepted(packer, blobs[..i]) && packer.index.unsaved == old(packer.index.unsaved)
      invariant packer.Spare() >= old(packer.Spare()) - i
    {
      assert blobs[i] in blobs;
      var added := AddOne(packer, blobs[i]);
      if !GoesOn(added) {
        return Err(added.error);
      }
      assert blobs[..i + 1] == blobs[..i] + [blobs[i]];
      i := i + 1;
    }
    assert blobs[..i] == blobs;
    return Ok(());
  }

  /** Splits a tree, adds its pieces, and gives the hash of the first. */
  method AddTreeToBlobs(packer: Manager, tree: Tree, ghost log0: seq<Blob>)
      returns (r: Result<Hash, PackfileError>, ghost log: seq<Blob>)
    requires packer.Valid()
    requires Encodable(tree) && tree.nextSibling.None?
    requires LogOk(log0) && Accepted(packer, log0) &&
             (tree.kind.DirTree? ==> forall c :: c in tree.children ==> c in TreeHashes(log0))
    modifies packer, packer.index, packer.disk
    ensures packer.Valid() && Grown(packer)
    ensures log0 <= log && LogOk(log) && Accepted(packer, log)
    ensures r.Ok? ==> r.value == RootHash(packer.disk.p, tree) && r.value in TreeHashes(log)
    ensures r.Ok? ==> StoredTree(packer.disk.p, tree, set b | b in log)
    ensures r.Ok? ==> packer.index.unsaved == old(packer.index.unsaved)
    ensures r.Err? ==> r.error != BlobTooLarge
    ensures packer.Spare() >= old(packer.Spare()) - |tree.children| - 1 &&
            (old(packer.Spare()) > |tree.children| ==> r.Ok?)
  {
    hide Manager.Valid, Manager.Tracked, Manager.Spare, Chain, LogChain, LogOk, Disk.Complete;
    log := log0;
    ChainLength(packer.disk.p, tree);
    var blobs := SplitSerializeTree(packer.disk.p, tree);
    forall i | 0 <= i < |blobs|
      ensures |blobs[i].data| <= BLOB_MAX && blobs[i].hash == packer.disk.p.blake3(blobs[i].data)
    {
      ChainPieces(packer.disk.p, tree, i);
    }
    var added := AddPiecesOfTree(packer, blobs);
    if added.Err? {
      return Err(added.error), log;
    }
    LogTree(packer.disk.p, log0, tree);
    AcceptedLog(packer.disk.p, packer, log0, tree);
    log := log0 + LogChain(packer.disk.p, tree);
    StoredByLog(packer.disk.p, tree, log0);
    return Ok(blobs[0].hash), log;
  }

  lemma {:induction false} ChainLength(p: Primitives, t: Tree)
    requires Encodable(t)
    ensures |Chain(p, t)| <= |t.children| + 1
    decreases |t.children|
  {
    if |t.children| > TREE_BLOB_MAX_CHILDREN {
      ChainLength(p, t.(children := t.children[TREE_BLOB_MAX_CHILDREN..], nextSibling := None));
    }
  }

  lemma {:induction false} StoredByLog(p: Primitives, t: Tree, log: seq<Blob>)
    requires Encodable(t) && t.nextSibling.None?
    ensures StoredTree(p, t, set b | b in log + LogChain(p, t))
  {
    forall i | 0 <= i < |Chain(p, t)|
      ensures Chain(p, t)[i] in log + LogChain(p, t)
    {
      assert Chain(p, t)[i] in LogChain(p, t);
    }
  }
}
