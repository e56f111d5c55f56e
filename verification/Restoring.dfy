/** The way back: peers deobfuscate and return what they store, the client fills its restore folder, and
    from there the backed up tree is rebuilt. */
module Restoring {
  import opened Wrappers
  import opened ByteStrings
  import opened Primitives
  import opened Archives
  import opened Disks
  import opened PackfileFormat
  import opened FileNames
  import opened Obfuscation
  import opened Sessions
  import opened Snapshots
  import opened Backup
  import opened Handover
  import Fetching
  import T = Transfers

  const RESTORE_THROTTLE_DELAY: nat := 60

  datatype FolderEntry = FolderEntry(path: seq<string>, data: Bytes)

  datatype RestoreError = RateLimited | InvalidName | NotSent

  /** How a file that a peer stores appears in its folder. */
  function StoredEntry(file: FileInfo, stored: Bytes): FolderEntry {
    FolderEntry(PathOf(file), stored)
  }

  /** What is sent for an entry of the packfile folder or of the index folder. */
  function SentBack(entry: FolderEntry, isIndex: bool, key: ObfuscationKey): Option<Msg> {
    if isIndex then
      var number := ParseIndexPath(entry.path);
      if number.Some? then Some(Msg(Index(number.value), Obfuscated(entry.data, key))) else None
    else
      var id := ParsePackfilePath(entry.path);
      if id.Some? then Some(Msg(Packfile(id.value), Obfuscated(entry.data, key))) else None
  }

  /** A file stored obfuscated comes back under its own name with its own bytes. */
  lemma {:induction false} StoredComesBack(file: FileInfo, data: Bytes, key: ObfuscationKey)
    ensures SentBack(StoredEntry(file, Obfuscated(data, key)), file.Index?, key) == Some(Msg(file, data))
  {
    hide Obfuscated;
    ObfuscatedTwice(data, key);
    if file.Index? {
      IndexNameParses(file.number);
    } else {
      PackfilePathParses(file.id);
    }
  }

  ghost predicate SentFor(entries: seq<FolderEntry>, isIndex: bool, key: ObfuscationKey, sent: seq<Msg>) {
    |sent| <= |entries| && forall k :: 0 <= k < |sent| ==> SentBack(entries[k], isIndex, key) == Some(sent[k])
  }

  /** Sends the entries of one folder, until one fails to parse or to be sent. */
  method SendFolder(entries: seq<FolderEntry>, isIndex: bool, key: ObfuscationKey, delivered: nat -> bool)
      returns (r: Result<(), RestoreError>, sent: seq<Msg>)
    ensures SentFor(entries, isIndex, key, sent) && forall k :: 0 <= k < |sent| ==> delivered(k)
    ensures r.Ok? <==> |sent| == |entries|
    ensures r == Err(InvalidName) ==> |sent| < |entries| && SentBack(entries[|sent|], isIndex, key).None?
    ensures r == Err(NotSent) ==>
              |sent| < |entries| && SentBack(entries[|sent|], isIndex, key).Some? && !delivered(|sent|)
    ensures r != Err(RateLimited)
  {
    hide Obfuscated, ParseIndexPath, ParsePackfilePath;
    sent := [];
    for k := 0 to |entries|
      invariant |sent| == k && SentFor(entries, isIndex, key, sent) && forall j :: 0 <= j < k ==> delivered(j)
    {
      var data := new byte[|entries[k].data|](i requires 0 <= i < |entries[k].data| => entries[k].data[i]);
      assert data[..] == entries[k].data;
      Obfuscate(data, key);
      var file: FileInfo;
      if isIndex {
        var number := ParseIndexPath(entries[k].path);
        if number.None? {
          return Err(InvalidName), sent;
        }
        file := Index(number.value);
      } else {
        var id := ParsePackfilePath(entries[k].path);
        if id.None? {
          return Err(InvalidName), sent;
        }
        file := Packfile(id.value);
      }
      if !delivered(k) {
        return Err(NotSent), sent;
      }
      sent := sent + [Msg(file, data[..])];
    }
    r := Ok(());
  }

  /** What is sent for the k-th entry of both folders, one after the other. */
  function SentAt(packfiles: seq<FolderEntry>, indexes: seq<FolderEntry>, key: ObfuscationKey, k: nat): Option<Msg>
    requires k < |packfiles| + |indexes|
  {
    if k < |packfiles| then SentBack(packfiles[k], false, key) else SentBack(indexes[k - |packfiles|], true, key)
  }

  /** Sends everything stored for a peer back to it: packfiles, then index files, at most once a minute, up to the
      first entry whose name does not parse or that cannot be sent. A request that is let through is recorded, even
      if sending then fails. */
  method RestoreAllDataToPeer(lastRequest: Option<int>, now: int, packfiles: seq<FolderEntry>,
                              indexes: seq<FolderEntry>, key: ObfuscationKey, delivered: nat -> bool)
      returns (r: Result<(), RestoreError>, sent: seq<Msg>, recorded: Option<int>)
    ensures recorded == if r == Err(RateLimited) then lastRequest else Some(now)
    ensures r == Err(RateLimited) <==> lastRequest.Some? && now - lastRequest.value < RESTORE_THROTTLE_DELAY
    ensures r.Ok? ==>
              |sent| == |packfiles| + |indexes| &&
              SentFor(packfiles, false, key, sent[..|packfiles|]) && SentFor(indexes, true, key, sent[|packfiles|..])
    ensures |sent| <= |packfiles| + |indexes| && (r == Err(RateLimited) ==> sent == [])
    ensures r != Err(RateLimited) ==> (r.Ok? <==> |sent| == |packfiles| + |indexes|)
    ensures forall k :: 0 <= k < |sent| ==> SentAt(packfiles, indexes, key, k) == Some(sent[k]) && delivered(k)
    ensures r == Err(InvalidName) ==> SentAt(packfiles, indexes, key, |sent|).None?
    ensures r == Err(NotSent) ==> SentAt(packfiles, indexes, key, |sent|).Some? && !delivered(|sent|)
  {
    hide SentBack;
    sent, recorded := [], lastRequest;
    if lastRequest.Some? && lastRequest.value > now - RESTORE_THROTTLE_DELAY {
      return Err(RateLimited), sent, recorded;
    }
    recorded := Some(now);
    r, sent := SendFolder(packfiles, false, key, delivered);
    if r.Err? {
      return;
    }
    var more;
    var deliveredAfter := (k: nat) => delivered(|packfiles| + k);
    r, more := SendFolder(indexes, true, key, deliveredAfter);
    forall k | |packfiles| <= k < |packfiles| + |more|
      ensures delivered(k)
    {
      assert deliveredAfter(k - |packfiles|);
    }
    assert (sent + more)[..|sent|] == sent && (sent + more)[|sent|..] == more;
    sent := sent + more;
  }

  // ----- What a peer of the transfer system returns -----

  /** The folder listings name just what the peer stores. */
  ghost predicate ListsStored(peer: T.Peer, packfiles: seq<FolderEntry>, indexes: seq<FolderEntry>) {
    (forall e :: e in packfiles <==> exists f :: f in peer.disk && f.Packfile? && e == StoredEntry(f, peer.disk[f])) &&
    (forall e :: e in indexes <==> exists f :: f in peer.disk && f.Index? && e == StoredEntry(f, peer.disk[f]))
  }

  /** These are the peer's files, under their names and with the bytes that the client wrote. */
  ghost predicate ReturnsAll(files: map<FileInfo, Bytes>, peer: T.Peer, sent: seq<Msg>) {
    (forall f :: f in peer.disk ==> f in files && Msg(f, files[f]) in sent) &&
    forall m :: m in sent ==> m.file in peer.disk && T.Genuine(files, m)
  }

  /** Each folder returns its own kind of file. */
  lemma {:induction false} FolderReturns(files: map<FileInfo, Bytes>, peer: T.Peer, entries: seq<FolderEntry>,
                                         isIndex: bool, sent: seq<Msg>)
    requires T.Stores(files, peer)
    requires forall e :: e in entries <==>
               exists f :: f in peer.disk && f.Index? == isIndex && e == StoredEntry(f, peer.disk[f])
    requires SentFor(entries, isIndex, peer.key, sent) && |sent| == |entries|
    ensures forall f :: f in peer.disk && f.Index? == isIndex ==> f in files && Msg(f, files[f]) in sent
    ensures forall m :: m in sent ==> m.file in peer.disk && T.Genuine(files, m)
  {
    hide SentBack, StoredEntry;
    forall f | f in peer.disk && f.Index? == isIndex
      ensures f in files && Msg(f, files[f]) in sent
    {
      var e := StoredEntry(f, peer.disk[f]);
      assert e in entries;
      var k :| 0 <= k < |entries| && entries[k] == e;
      StoredComesBack(f, files[f], peer.key);
      assert sent[k] == Msg(f, files[f]);
    }
    forall m | m in sent
      ensures m.file in peer.disk && T.Genuine(files, m)
    {
      var k :| 0 <= k < |sent| && sent[k] == m;
      assert entries[k] in entries;
      var f :| f in peer.disk && f.Index? == isIndex && entries[k] == StoredEntry(f, peer.disk[f]);
      StoredComesBack(f, files[f], peer.key);
    }
  }

  /** Every file a peer stores comes back with the same id and bytes. */
  lemma {:induction false} PeerReturnsAll(w: T.World, p: ClientId, packfiles: seq<FolderEntry>,
                                          indexes: seq<FolderEntry>, sent: seq<Msg>)
    requires T.WorldOk(w) && p in w.peers && ListsStored(w.peers[p], packfiles, indexes)
    requires |sent| == |packfiles| + |indexes|
    requires SentFor(packfiles, false, w.peers[p].key, sent[..|packfiles|]) &&
             SentFor(indexes, true, w.peers[p].key, sent[|packfiles|..])
    ensures ReturnsAll(w.files, w.peers[p], sent)
  {
    hide T.SessionsOk, T.FilesOk, T.NothingLost, T.IndexSent, T.Stores, SentFor, StoredEntry;
    var n := |packfiles|;
    assert sent == sent[..n] + sent[n..];
    FolderReturns(w.files, w.peers[p], packfiles, false, sent[..n]);
    FolderReturns(w.files, w.peers[p], indexes, true, sent[n..]);
  }

  // ----- The client's restore folder -----

  class RestoreReceiver {
    var files: map<FileInfo, Bytes>

    constructor ()
      ensures files == map[]
    {
      files := map[];
    }

    /** Files are overwritten here, unlike at a peer. */
    method SaveFile(file: FileInfo, data: Bytes)
      modifies this
      ensures files == old(files)[file := data]
    {
      files := files[file := data];
    }

    method SaveAll(msgs: seq<Msg>)
      requires files == map[]
      modifies this
      ensures files == FilesWritten(msgs)
    {
      assert msgs[..0] == [];
      for k := 0 to |msgs|
        invariant files == FilesWritten(msgs[..k])
      {
        SaveFile(msgs[k].file, msgs[k].data);
        assert msgs[..k + 1][..k] == msgs[..k];
      }
      assert msgs[..|msgs|] == msgs;
    }
  }

  lemma {:induction false} FilesAreGenuine(files: map<FileInfo, Bytes>, msgs: seq<Msg>)
    requires forall m :: m in msgs ==> T.Genuine(files, m)
    ensures forall m :: m in msgs ==> m.file in FilesWritten(msgs)
    ensures forall f :: f in FilesWritten(msgs) ==> f in files && FilesWritten(msgs)[f] == files[f]
  {
    if msgs != [] {
      var front, last := msgs[..|msgs| - 1], msgs[|msgs| - 1];
      assert msgs == front + [last];
      assert T.Genuine(files, last) by { assert last in msgs; }
      FilesAreGenuine(files, front);
      assert FilesWritten(msgs) == FilesWritten(front)[last.file := last.data];
    }
  }

  /** What all peers returned, in whatever order it arrived. */
  ghost predicate AllReturned(w: T.World, returned: map<ClientId, seq<Msg>>, received: seq<Msg>) {
    (forall p :: p in w.peers ==> p in returned && ReturnsAll(w.files, w.peers[p], returned[p])) &&
    forall m :: m in received <==> exists p :: p in w.peers && p in returned && m in returned[p]
  }

  lemma {:induction false} ReceivedIsGenuine(w: T.World, returned: map<ClientId, seq<Msg>>, received: seq<Msg>, m: Msg)
    requires AllReturned(w, returned, received) && m in received
    ensures T.Genuine(w.files, m)
  {
    var p :| p in w.peers && p in returned && m in returned[p];
    assert ReturnsAll(w.files, w.peers[p], returned[p]);
  }

  lemma {:induction false} HeldIsReceived(w: T.World, returned: map<ClientId, seq<Msg>>, received: seq<Msg>,
                                          f: FileInfo)
    requires AllReturned(w, returned, received) && T.Held(w, f)
    ensures f in w.files && Msg(f, w.files[f]) in received
  {
    var p :| p in w.peers && f in w.peers[p].disk;
    assert ReturnsAll(w.files, w.peers[p], returned[p]);
    assert Msg(f, w.files[f]) in returned[p];
  }

  /** The restore folder ends up with exactly the files that the client wrote, if each was held by some peer. */
  lemma {:induction false} RestoreFolderIsComplete(w: T.World, returned: map<ClientId, seq<Msg>>, received: seq<Msg>)
    requires AllReturned(w, returned, received) && forall f :: f in w.files ==> T.Held(w, f)
    ensures FilesWritten(received) == w.files
  {
    hide AllReturned, T.Genuine, T.Held, FilesWritten;
    forall m | m in received
      ensures T.Genuine(w.files, m)
    {
      ReceivedIsGenuine(w, returned, received, m);
    }
    FilesAreGenuine(w.files, received);
    forall f | f in w.files
      ensures f in FilesWritten(received)
    {
      HeldIsReceived(w, returned, received, f);
    }
  }

  // ----- From peers back to the tree -----

  function PacksOf(files: map<FileInfo, Bytes>): map<PackfileId, Bytes> {
    map f | f in files && f.Packfile? :: f.id := files[f]
  }

  function IndexesOf(files: map<FileInfo, Bytes>): map<u32, Bytes> {
    map f | f in files && f.Index? :: f.number := files[f]
  }

  lemma {:induction false} FilesApart(packs: map<PackfileId, Bytes>, indexFiles: map<u32, Bytes>)
    ensures PacksOf(FilesOf(packs, indexFiles)) == packs && IndexesOf(FilesOf(packs, indexFiles)) == indexFiles
  {
    var files := FilesOf(packs, indexFiles);
    forall id | id in packs
      ensures id in PacksOf(files)
    {
      assert Packfile(id) in files;
    }
    forall n | n in indexFiles
      ensures n in IndexesOf(files)
    {
      assert Index(n) in files;
    }
  }

  /** The files ever written to a valid folder are those of its archive, whatever has been deleted since. */
  lemma {:induction false} FolderIsArchive(disk: Disk)
    requires disk.Valid()
    ensures PacksImage(disk.p, disk.archive.packs, PacksOf(disk.Files())) &&
            IndexImage(disk.p, disk.archive.index, IndexesOf(disk.Files()))
    ensures WrittenInOrder(disk.order, FilesIn(PacksOf(disk.Files()).Keys, IndexesOf(disk.Files()).Keys))
  {
    FilesApart(disk.written, disk.indexFiles);
    hide PacksOf, IndexesOf, FilesOf, IndexImage, PacksImage, WrittenInOrder, Lawful, ArchiveOk, HistoryOk;
  }

  /** The whole way: a tree is packed into files while these are sent away and deleted from the client's folder,
      every file ever written is held by some peer, and the peers return what they have. Unpacking the restore
      folder then gives a faithful copy of the tree, if and only if no tree of the snapshot has the bytes of a
      file chunk that came first. */
  method RecoverBackup(p: Primitives, received: seq<Msg>, packfilesSize: nat, rootHash: Hash, ghost client: Disk,
                       ghost start: T.World, ghost events: seq<T.Event>, ghost returned: map<ClientId, seq<Msg>>,
                       ghost fs: Fs, ghost s: Snapshot, ghost log: seq<Blob>, ghost omitted: set<Path>)
      returns (r: Result<map<Path, Restored>, Fetching.UnpackError>)
    requires client.Valid() && client.p == p
    requires WellFormed(fs) && Packed(p, fs, s, log, omitted, rootHash, client.archive, client.offered, {})
    requires NoCollision(log, client.offered)
    requires T.Runs(start, events) && start.files == map[] && WritesIn(events) == WritesTo(client)
    requires AllReturned(T.Run(start, events), returned, received)
    requires forall f :: f in T.Run(start, events).files ==> T.Held(T.Run(start, events), f)
    ensures s.trees.Keys <= fs.Keys
    ensures r.Ok? ==> forall q :: q in r.value ==> q in s.trees && q in fs && Faithful(fs[q], r.value[q])
    ensures r == if TreesFirst(p, s, client.archive.first) then Ok(Copy(fs, s.trees.Keys)) else Err(Fetching.NotATree)
  {
    AllWritten(client, start, events);
    FolderIsArchive(client);
    ValidParts(client);
    hide Lawful, ArchiveOk, WellFormed, Packed, NoCollision, TreesFirst, AllReturned, T.Held, FilesWritten, IndexImage,
         PackImage, PacksOf, IndexesOf, Copy, Faithful, T.Run, T.Runs, WritesIn, Disk.Valid, Disk.Files, PacksImage,
         WrittenInOrder;
    var folder := new RestoreReceiver();
    folder.SaveAll(received);
    RestoreFolderIsComplete(T.Run(start, events), returned, received);
    var disk := new Disk.Restored(p, PacksOf(folder.files), IndexesOf(folder.files), client.archive, client.offered,
                                  client.order);
    r := Restore(disk, packfilesSize, rootHash, fs, s, log, omitted);
  }

  lemma {:induction false} ValidParts(disk: Disk)
    requires disk.Valid()
    ensures Lawful(disk.p) && ArchiveOk(disk.p, disk.archive, disk.offered)
  {
  }
}
