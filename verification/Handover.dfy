/** From the packer to the transfer: the files that packing writes, in their order, are steps of the transfer
    system, whatever else happens there in between. */
module Handover {
  import opened ByteStrings
  import opened Primitives
  import opened PackfileFormat
  import opened Archives
  import opened Disks
  import opened FileNames
  import opened Sessions
  import T = Transfers

  /** What writing these files one after the other leaves. */
  function FilesWritten(msgs: seq<Msg>): map<FileInfo, Bytes> {
    if msgs == [] then map[] else FilesWritten(msgs[..|msgs| - 1])[msgs[|msgs| - 1].file := msgs[|msgs| - 1].data]
  }

  /** These files with their content, in this order. */
  ghost function InOrder(order: seq<FileInfo>, files: map<FileInfo, Bytes>): seq<Msg>
    requires forall f :: f in order ==> f in files
  {
    seq(|order|, k requires 0 <= k < |order| => Msg(order[k], files[order[k]]))
  }

  /** Everything written to a folder, in the order it was written. */
  ghost function WritesTo(disk: Disk): seq<Msg>
    requires disk.Valid()
    reads disk
  {
    InOrder(disk.order, disk.Files())
  }

  /** What is written in the course of a run. */
  ghost function WritesIn(events: seq<T.Event>): seq<Msg> {
    if events == [] then []
    else (if events[0].WriteFile? then [Msg(events[0].file, events[0].data)] else []) + WritesIn(events[1..])
  }

  /** What was written in a run is there at its end, next to what was there before, and nothing else. */
  lemma {:induction false} RunFiles(w: T.World, events: seq<T.Event>)
    requires T.Runs(w, events)
    ensures var files := T.Run(w, events).files;
            (forall f :: f in w.files ==> f in files && files[f] == w.files[f]) &&
            (forall m :: m in WritesIn(events) ==> m.file in files && files[m.file] == m.data) &&
            forall f :: f in files ==> f in w.files || exists m :: m in WritesIn(events) && m.file == f
    ensures T.Run(w, events).packed <==> w.packed || T.FinishPacking in events
    decreases |events|
  {
    if events != [] {
      var e, w' := events[0], T.Next(w, events[0]);
      StepFiles(w, e);
      hide T.Next, T.Enabled;
      RunFiles(w', events[1..]);
      forall f | f in T.Run(w, events).files
        ensures f in w.files || exists m :: m in WritesIn(events) && m.file == f
      {
        if f in w'.files && f !in w.files {
          assert Msg(e.file, e.data) in WritesIn(events);
        } else if f !in w.files {
          var m :| m in WritesIn(events[1..]) && m.file == f;
          assert m in WritesIn(events);
        }
      }
    }
  }

  lemma {:induction false} StepFiles(w: T.World, e: T.Event)
    requires T.Enabled(w, e)
    ensures T.Next(w, e).files == if e.WriteFile? then w.files[e.file := e.data] else w.files
    ensures e.WriteFile? ==> e.file !in w.files
    ensures T.Next(w, e).packed <==> w.packed || e == T.FinishPacking
  {
    hide T.SessionsAfter, T.PeersAfter, T.LocalAfter, T.HighestSentAfter, T.LedgerAfter;
  }

  lemma {:induction false} PackfileNotEmpty(p: Primitives, blobs: seq<BlobEncrypted>, id: PackfileId, file: Bytes)
    requires PackImage(p, blobs, id, file)
    ensures file != []
  {
    hide SealedHeader, HeaderOf, DataOf;
  }

  lemma {:induction false} IndexFileNotEmpty(p: Primitives, number: u32, entries: seq<Entry>)
    requires Lawful(p) && |entries| < U64_LIMIT
    ensures IndexFile(p, number, entries) != []
  {
  }

  /** What the folder's invariant says of its files. */
  lemma {:induction false} FolderFacts(disk: Disk)
    requires disk.Valid()
    ensures WrittenInOrder(disk.order, disk.Files().Keys)
    ensures forall f :: f in disk.Files() ==> disk.Files()[f] != []
  {
    hide ArchiveOk, PackImage, Lawful, WrittenInOrder, HistoryOk, IndexFile;
    forall f | f in disk.Files()
      ensures disk.Files()[f] != []
    {
      if f.Packfile? {
        PackfileNotEmpty(disk.p, disk.archive.packs[f.id], f.id, disk.written[f.id]);
      } else {
        IndexFileNotEmpty(disk.p, f.number, disk.archive.index[f.number - 1]);
      }
    }
    assert disk.Files().Keys == FilesIn(disk.written.Keys, disk.indexFiles.Keys);
  }

  lemma {:induction false} NextIsNew(order: seq<FileInfo>, content: map<FileInfo, Bytes>, have: map<FileInfo, Bytes>,
                                     k: nat)
    requires WrittenInOrder(order, content.Keys) && k < |order|
    requires forall f :: f in have ==> exists m :: m in InOrder(order, content)[..k] && m.file == f
    ensures |InOrder(order, content)| == |order|
    ensures var next := InOrder(order, content)[k];
            next.file in content && next.data == content[next.file] && next.file !in have &&
            (next.file.Index? ==> forall f :: f in have && f.Index? ==> f.number < next.file.number)
  {
    assert order[k] in order;
    forall f | f in have
      ensures exists i :: 0 <= i < k && order[i] == f
    {
      var m :| m in InOrder(order, content)[..k] && m.file == f;
      var i :| 0 <= i < k && InOrder(order, content)[..k][i] == m;
      assert order[i] == f;
    }
  }

  lemma {:induction false} NewIsEnabled(w: T.World, file: FileInfo, data: Bytes)
    requires T.MayWrite(w, file, data)
    ensures T.Enabled(w, T.WriteFile(file, data))
  {
  }

  lemma {:induction false} AllInOrder(order: seq<FileInfo>, content: map<FileInfo, Bytes>, have: map<FileInfo, Bytes>)
    requires WrittenInOrder(order, content.Keys)
    requires forall m :: m in InOrder(order, content) ==> m.file in have && have[m.file] == m.data
    requires forall f :: f in have ==> exists m :: m in InOrder(order, content) && m.file == f
    ensures have == content
  {
    var writes := InOrder(order, content);
    forall f | f in content
      ensures f in have && have[f] == content[f]
    {
      var i :| 0 <= i < |order| && order[i] == f;
      assert writes[i] in writes && writes[i] == Msg(f, content[f]);
    }
    forall f | f in have
      ensures f in content
    {
      var m :| m in writes && m.file == f;
      var i :| 0 <= i < |writes| && writes[i] == m;
      assert order[i] in order;
    }
  }

  /** Packing's next write is always a possible step: however the run so far has interleaved the earlier
      writes with sending, deleting, sessions and matches, its file is new, and an index file's number is
      above all earlier ones. */
  lemma {:induction false} PackerMayWrite(disk: Disk, w: T.World, events: seq<T.Event>, k: nat)
    requires disk.Valid() && T.Runs(w, events) && w.files == map[] && !w.packed
    requires T.FinishPacking !in events && k < |WritesTo(disk)| && WritesIn(events) == WritesTo(disk)[..k]
    ensures T.Enabled(T.Run(w, events), T.WriteFile(WritesTo(disk)[k].file, WritesTo(disk)[k].data))
  {
    FolderFacts(disk);
    RunFiles(w, events);
    assert |InOrder(disk.order, disk.Files())| == |disk.order|;
    hide Disk.Valid, Disk.Files, T.Run, T.Runs, T.Enabled, T.Next, WrittenInOrder, WritesIn, InOrder;
    NextIsNew(disk.order, disk.Files(), T.Run(w, events).files, k);
    NewIsEnabled(T.Run(w, events), WritesTo(disk)[k].file, WritesTo(disk)[k].data);
  }

  /** Once all of it has been written, the run has exactly the folder's files, those the sender has deleted
      from the folder included. */
  lemma {:induction false} AllWritten(disk: Disk, w: T.World, events: seq<T.Event>)
    requires disk.Valid() && T.Runs(w, events) && w.files == map[] && WritesIn(events) == WritesTo(disk)
    ensures T.Run(w, events).files == disk.Files()
  {
    FolderFacts(disk);
    RunFiles(w, events);
    hide Disk.Valid, Disk.Files, T.Run, T.Runs, WrittenInOrder, WritesIn, InOrder;
    AllInOrder(disk.order, disk.Files(), T.Run(w, events).files);
  }
}
