/** What whole sequences of calls to the packfile manager leave in a folder. */
module Storing {
  import opened Wrappers
  import opened Primitives
  import opened PackfileFormat
  import opened Archives
  import opened Disks
  import opened BlobIndices
  import opened Packfiles

  /** No earlier blob of the sequence has the same hash. */
  ghost predicate FirstIn(log: seq<Blob>, i: nat)
    ensures FirstIn(log, i) ==> i < |log|
  {
    i < |log| && forall j :: 0 <= j < i ==> log[j].hash != log[i].hash
  }

  ghost function LogHashes(log: seq<Blob>): set<Hash> {
    set b | b in log :: b.hash
  }

  /** Under every hash of the sequence that was not tracked before, its first blob is recorded. */
  ghost predicate FirstsRecorded(p: Primitives, log: seq<Blob>, before: set<Hash>, first: map<Hash, BlobEncrypted>) {
    forall i: nat :: FirstIn(log, i) && log[i].hash !in before ==>
      log[i].hash in first && Plain(p, first[log[i].hash]) == Ok(log[i])
  }

  /** What is recorded for these hashes stays. */
  ghost predicate FirstsKept(tracked: set<Hash>, first: map<Hash, BlobEncrypted>, first': map<Hash, BlobEncrypted>) {
    forall h :: h in tracked && h in first ==> h in first' && first'[h] == first[h]
  }

  lemma {:induction false} LogHashesSnoc(log: seq<Blob>, i: nat)
    requires i < |log|
    ensures LogHashes(log[..i + 1]) == LogHashes(log[..i]) + {log[i].hash}
  {
    assert log[..i + 1] == log[..i] + [log[i]];
  }

  lemma {:induction false} FirstInPrefix(log: seq<Blob>, n: nat, i: nat)
    requires n <= |log|
    ensures FirstIn(log[..n], i) <==> i < n && FirstIn(log, i)
  {
  }

  lemma {:induction false} FirstIsNew(log: seq<Blob>, i: nat)
    requires i < |log|
    ensures FirstIn(log, i) <==> log[i].hash !in LogHashes(log[..i])
    ensures forall j :: 0 <= j < i ==> log[j].hash in LogHashes(log[..i])
  {
    forall j | 0 <= j < i
      ensures log[j].hash in LogHashes(log[..i])
    {
      assert log[..i][j] in log[..i];
    }
    if log[i].hash in LogHashes(log[..i]) {
      var b :| b in log[..i] && b.hash == log[i].hash;
      var k :| 0 <= k < i && log[k] == b;
    }
  }

  lemma {:induction false} RecordStep(p: Primitives, log: seq<Blob>, i: nat, before: set<Hash>,
                                      first0: map<Hash, BlobEncrypted>, first: map<Hash, BlobEncrypted>,
                                      first': map<Hash, BlobEncrypted>)
    requires i < |log| && FirstsRecorded(p, log[..i], before, first) && FirstsKept(before, first0, first)
    requires forall h :: h in first && (h != log[i].hash || h in before + LogHashes(log[..i])) ==>
               h in first' && first'[h] == first[h]
    requires log[i].hash !in before + LogHashes(log[..i]) ==>
               log[i].hash in first' && Plain(p, first'[log[i].hash]) == Ok(log[i])
    ensures FirstsRecorded(p, log[..i + 1], before, first') && FirstsKept(before, first0, first')
    ensures LogHashes(log[..i + 1]) == LogHashes(log[..i]) + {log[i].hash}
  {
    hide Plain, FirstIn, LogHashes;
    LogHashesSnoc(log, i);
    FirstIsNew(log, i);
    forall j: nat | FirstIn(log[..i + 1], j) && log[..i + 1][j].hash !in before
      ensures log[j].hash in first' && Plain(p, first'[log[j].hash]) == Ok(log[j])
    {
      FirstInPrefix(log, i + 1, j);
      FirstInPrefix(log, i, j);
    }
  }

  lemma {:induction false} RecordStarts(p: Primitives, before: set<Hash>, first: map<Hash, BlobEncrypted>)
    ensures FirstsRecorded(p, [], before, first) && FirstsKept(before, first, first) && LogHashes([]) == {}
  {
  }

  /** Any sequence of blobs, added and flushed: if that succeeds, every hash is in the index files, save for
      those whose packfile an earlier call failed to write; and the blob recorded under a hash is that of its
      first insertion, here or, if tracked before, earlier. */
  method StoreAll(manager: Manager, log: seq<Blob>) returns (r: Result<(), PackfileError>)
    requires manager.Valid()
    modifies manager, manager.index, manager.disk
    ensures manager.Valid() && old(manager.disk.history) <= manager.disk.history
    ensures old(manager.disk.Complete()) ==> manager.disk.Complete()
    ensures r.Ok? ==>
              old(manager.Tracked()) + LogHashes(log) <=
              HashSet(Flat(manager.disk.archive)) + old(manager.index.unsaved)
    ensures r.Ok? ==> FirstsKept(old(manager.Tracked()), old(manager.disk.archive.first), manager.disk.archive.first)
    ensures r.Ok? ==> FirstsRecorded(manager.disk.p, log, old(manager.Tracked()), manager.disk.archive.first)
    ensures old(manager.Spare()) > |log| && (forall b :: b in log ==> |b.data| <= BLOB_MAX) ==> r.Ok?
    ensures old(manager.index.Bounded() && !manager.index.Full()) ==> manager.index.Bounded()
  {
    hide NewFiles, SizesOf, Total, OverLimit, BlobIndex.Bounded, BlobIndex.Full, BlobIndex.Trim, Plain, HashSet, Flat,
         Manager.Valid, Manager.Tracked, Manager.Spare, Disk.Complete, Manager.KnownSet, FirstsRecorded, FirstsKept,
         LogHashes;
    ghost var before, first0 := manager.Tracked(), manager.disk.archive.first;
    RecordStarts(manager.disk.p, before, first0);
    assert log[..0] == [];
    var i := 0;
    while i < |log|
      invariant 0 <= i <= |log|
      invariant manager.Valid() && manager.index.unsaved == old(manager.index.unsaved) &&
                old(manager.disk.history) <= manager.disk.history
      invariant old(manager.disk.Complete()) ==> manager.disk.Complete()
      invariant manager.Tracked() == before + LogHashes(log[..i])
      invariant FirstsKept(before, first0, manager.disk.archive.first)
      invariant FirstsRecorded(manager.disk.p, log[..i], before, manager.disk.archive.first)
      invariant manager.Spare() >= old(manager.Spare()) - i
      invariant old(manager.index.Bounded() && !manager.index.Full()) ==>
                  manager.index.Bounded() && !manager.index.Full()
    {
      ghost var first := manager.disk.archive.first;
      var added, _, _ := manager.AddBlob(log[i]);
      if added.Err? && added.error != ExceededBufferLimit {
        return Err(added.error);
      }
      RecordStep(manager.disk.p, log, i, before, first0, first, manager.disk.archive.first);
      i := i + 1;
    }
    assert log[..i] == log;
    var flushed, _ := manager.Flush();
    r := flushed;
  }

  // ----- Failed writes -----

  datatype StoreCall = Add(blob: Blob) | FlushQueue

  ghost function LostHashes(failures: seq<Failure>): set<Hash> {
    if failures == [] then {} else LostHashes(failures[..|failures| - 1]) + HashesIn(Lost(failures[|failures| - 1]))
  }

  lemma {:induction false} LostSnoc(failures: seq<Failure>, f: Failure)
    ensures LostHashes(failures + [f]) == LostHashes(failures) + HashesIn(Lost(f))
  {
    assert (failures + [f])[..|failures|] == failures;
  }

  /** A hash is lost if and only if some failure lost it. */
  lemma {:induction false} LostIn(failures: seq<Failure>, h: Hash)
    ensures h in LostHashes(failures) <==> exists i :: 0 <= i < |failures| && h in HashesIn(Lost(failures[i]))
  {
    hide HashesIn, Lost;
    if failures != [] {
      var n := |failures| - 1;
      LostIn(failures[..n], h);
      assert h in HashesIn(Lost(failures[n])) ==> h in LostHashes(failures);
    }
  }

  /** Nothing went wrong, or all that did was writing an index file when every hash had been entered. */
  ghost predicate Harmless(f: Failure) {
    f.NoFailure? || (f.IndexUnwritten? && f.entered == |f.batch|)
  }

  lemma {:induction false} HarmlessLosesNothing(f: Failure)
    requires FailureOk(f)
    ensures HashesIn(Lost(f)) == {} <==> Harmless(f)
  {
    BatchIsSome(Lost(f));
    NothingQueued();
    SomeHash(Lost(f));
  }

  lemma {:induction false} AllHarmless(failures: seq<Failure>)
    requires forall i :: 0 <= i < |failures| ==> FailureOk(failures[i])
    ensures LostHashes(failures) == {} <==> forall i :: 0 <= i < |failures| ==> Harmless(failures[i])
  {
    hide FailureOk, Harmless, Lost, HashesIn;
    if failures != [] {
      var n := |failures| - 1;
      AllHarmless(failures[..n]);
      HarmlessLosesNothing(failures[n]);
      assert (forall i :: 0 <= i < |failures| ==> Harmless(failures[i])) <==>
             (forall i :: 0 <= i < n ==> Harmless(failures[..n][i])) && Harmless(failures[n]);
    }
  }

  /** What each call replied, whether it failed in writing, and at what. An error of the random generator
      may also come from sealing a blob, which loses nothing. */
  ghost predicate ReplyOk(call: StoreCall, result: Result<Option<nat>, PackfileError>, failed: bool, failure: Failure) {
    FailureOk(failure) && (failed <==> !failure.NoFailure?) &&
    (failed ==> result.Err? && WriteFailure(result.error) && Reports(failure, result.error)) &&
    (result.Err? && WriteFailure(result.error) && (call.FlushQueue? || result.error != GetrandomError) ==> failed)
  }

  ghost predicate RepliesOk(calls: seq<StoreCall>, results: seq<Result<Option<nat>, PackfileError>>, failed: seq<bool>,
                            failures: seq<Failure>)
  {
    |failed| == |results| == |failures| <= |calls| &&
    forall i :: 0 <= i < |results| ==> ReplyOk(calls[i], results[i], failed[i], failures[i])
  }

  ghost predicate EndsFlushed(calls: seq<StoreCall>, results: seq<Result<Option<nat>, PackfileError>>) {
    0 < |results| <= |calls| && calls[|results| - 1].FlushQueue? && results[|results| - 1].Ok?
  }

  /** A packfile was written between two states of the folder. */
  ghost predicate Wrote(before: Archive, after: Archive) {
    after.packs != before.packs
  }

  /** An index file could not be written while the hashes of a batch were being entered. */
  ghost predicate Overdue(f: Failure) {
    f.IndexUnwritten? && f.batch != []
  }

  /** After the first n calls an index file is overdue: its write failed while hashes were being entered, and
      no later call has written a packfile, whose hashes come with the next attempt, or flushed with success. */
  ghost predicate Outstanding(calls: seq<StoreCall>, results: seq<Result<Option<nat>, PackfileError>>,
      failures: seq<Failure>,
                              states: seq<Archive>, n: nat)
    requires n <= |results| && |results| == |failures| <= |calls| && |states| == |results| + 1
  {
    n > 0 &&
    (Overdue(failures[n - 1]) ||
     (!Wrote(states[n - 1], states[n]) && !(calls[n - 1].FlushQueue? && results[n - 1].Ok?) &&
      Outstanding(calls, results, failures, states, n - 1)))
  }

  /** Some call entered hashes while an index file was overdue. */
  ghost predicate Overfills(calls: seq<StoreCall>, results: seq<Result<Option<nat>, PackfileError>>,
      failures: seq<Failure>,
                            states: seq<Archive>)
    requires |results| == |failures| <= |calls| && |states| == |results| + 1
  {
    exists n :: 0 <= n < |results| && Outstanding(calls, results, failures, states, n) &&
      Wrote(states[n], states[n + 1])
  }

  lemma {:induction false} OutstandingEarlier(calls: seq<StoreCall>, results: seq<Result<Option<nat>, PackfileError>>,
                                              failures: seq<Failure>, states: seq<Archive>,
                                              result: Result<Option<nat>, PackfileError>, failure: Failure,
                                                state: Archive, n: nat)
    requires n <= |results| && |results| == |failures| < |calls| && |states| == |results| + 1
    ensures Outstanding(calls, results + [result], failures + [failure], states + [state], n) <==>
            Outstanding(calls, results, failures, states, n)
  {
    if n > 0 {
      OutstandingEarlier(calls, results, failures, states, result, failure, state, n - 1);
    }
  }

  /** One more call. */
  lemma {:induction false} OverfillsSnoc(calls: seq<StoreCall>, results: seq<Result<Option<nat>, PackfileError>>,
                                         failures: seq<Failure>, states: seq<Archive>,
                                         result: Result<Option<nat>, PackfileError>, failure: Failure, state: Archive)
    requires |results| == |failures| < |calls| && |states| == |results| + 1
    ensures var n, results', failures', states' := |results|, results + [result], failures + [failure],
            states + [state];
            (Overfills(calls, results', failures', states') <==>
               Overfills(calls, results, failures, states) ||
               (Outstanding(calls, results, failures, states, n) && Wrote(states[n], state))) &&
            (Outstanding(calls, results', failures', states', n + 1) <==>
               Overdue(failure) ||
               (!Wrote(states[n], state) && !(calls[n].FlushQueue? && result.Ok?) &&
                 Outstanding(calls, results, failures, states, n)))
  {
    hide Wrote, Overdue;
    var results', failures', states' := results + [result], failures + [failure], states + [state];
    forall n | 0 <= n <= |results|
      ensures Outstanding(calls, results', failures', states', n) <==> Outstanding(calls, results, failures, states, n)
    {
      OutstandingEarlier(calls, results, failures, states, result, failure, state, n);
    }
    assert forall n :: 0 <= n <= |results| ==> states'[n] == states[n];
    if Overfills(calls, results, failures, states) {
      var n :| 0 <= n < |results| && Outstanding(calls, results, failures, states, n) &&
        Wrote(states[n], states[n + 1]);
      assert Outstanding(calls, results', failures', states', n) && Wrote(states'[n], states'[n + 1]);
    }
    if Outstanding(calls, results, failures, states, |results|) && Wrote(states[|results|], state) {
      assert Outstanding(calls, results', failures', states', |results|) &&
        Wrote(states'[|results|], states'[|results| + 1]);
    }
  }

  /** Without such a failure nothing is ever overdue. */
  lemma {:induction false} NothingOverdue(calls: seq<StoreCall>, results: seq<Result<Option<nat>, PackfileError>>,
                                          failures: seq<Failure>, states: seq<Archive>, n: nat)
    requires n <= |results| && |results| == |failures| <= |calls| && |states| == |results| + 1
    requires forall i :: 0 <= i < |failures| ==> !Overdue(failures[i])
    ensures !Outstanding(calls, results, failures, states, n)
  {
    if n > 0 {
      NothingOverdue(calls, results, failures, states, n - 1);
    }
  }

  lemma {:induction false} NothingOverfills(calls: seq<StoreCall>, results: seq<Result<Option<nat>, PackfileError>>,
                                            failures: seq<Failure>, states: seq<Archive>)
    requires |results| == |failures| <= |calls| && |states| == |results| + 1
    ensures (forall i :: 0 <= i < |failures| ==> !Overdue(failures[i])) ==> !Overfills(calls, results, failures, states)
  {
    hide Wrote, Overdue, Outstanding;
    if forall i :: 0 <= i < |failures| ==> !Overdue(failures[i]) {
      forall n | 0 <= n < |results|
        ensures !Outstanding(calls, results, failures, states, n)
      {
        NothingOverdue(calls, results, failures, states, n);
      }
    }
  }

  /** Makes one call. `failed`: its error came from writing and not from sealing the blob. */
  method MakeCall(manager: Manager, call: StoreCall)
      returns (result: Result<Option<nat>, PackfileError>, failed: bool, ghost failure: Failure)
    requires manager.Valid()
    modifies manager, manager.index, manager.disk
    ensures manager.Valid() && old(manager.disk.history) <= manager.disk.history
    ensures ReplyOk(call, result, failed, failure)
    ensures manager.index.unsaved == old(manager.index.unsaved) + HashesIn(Lost(failure)) &&
            old(manager.Tracked()) <= manager.Tracked()
    ensures HashesIn(Lost(failure)) !! old(manager.index.unsaved)
    ensures call.Add? && (GoesOn(result) || failed) ==> call.blob.hash in manager.Tracked()
    ensures call.FlushQueue? && result.Ok? ==>
              manager.Tracked() == HashSet(Flat(manager.disk.archive)) + manager.index.unsaved &&
              HashSet(Flat(manager.disk.archive)) !! manager.index.unsaved && manager.index.itemsBuf == []
    ensures manager.index.Bounded() <==>
              old(manager.index.Bounded()) && !(old(manager.index.Full()) &&
                Wrote(old(manager.disk.archive), manager.disk.archive))
    ensures manager.index.Full() <==>
              Overdue(failure) ||
              (!Wrote(old(manager.disk.archive), manager.disk.archive) && !(call.FlushQueue? && result.Ok?) &&
                old(manager.index.Full()))
  {
    hide NewFiles, SizesOf, Total, OverLimit, BlobIndex.Bounded, BlobIndex.Full, BlobIndex.Trim, Manager.Valid,
         Manager.Tracked, Manager.KnownSet, Manager.Spare, HashesIn, HashSet, Flat, FailureOk, Lost, Disk.Complete;
    manager.UnsavedFacts();
    match call {
      case Add(blob) =>
        var nonces := |manager.randomNonces|;
        ghost var ids;
        result, failure, ids := manager.AddBlob(blob);
        failed := result.Err? && WriteFailure(result.error) && |manager.randomNonces| < nonces;
      case FlushQueue =>
        var flushed;
        flushed, failure := manager.Flush();
        result := if flushed.Ok? then Ok(None) else Err(flushed.error);
        failed := flushed.Err?;
    }
  }

  /** Any calls in any order, going on after errors, while writes fail and the sender deletes packfiles at any
      time. Once a flush succeeds, a hash that was ever queued is in the index files if and only if no call
      lost it, that is, held it in a batch whose packfile, or the index file before this hash was entered,
      could not be written. Everything ever queued is there if and only if nothing went wrong but the writing
      of index files whose hashes had all been entered. `states` are the folder's contents before and after
      the calls. If no index file is over 50,000 entries at first, then after a successful flush none is, if and
      only if no packfile was written while an index file was overdue. */
  method MakeCalls(manager: Manager, calls: seq<StoreCall>)
      returns (results: seq<Result<Option<nat>, PackfileError>>, failed: seq<bool>,
               ghost failures: seq<Failure>, ghost states: seq<Archive>)
    requires manager.Valid()
    modifies manager, manager.index, manager.disk
    ensures manager.Valid() && old(manager.disk.history) <= manager.disk.history
    ensures RepliesOk(calls, results, failed, failures) && |results| == |calls|
    ensures forall i :: 0 <= i < |calls| && calls[i].Add? && (GoesOn(results[i]) || failed[i]) ==>
              calls[i].blob.hash in manager.Tracked()
    ensures EndsFlushed(calls, results) ==>
              forall h :: h in manager.Tracked() ==>
                (h in HashSet(Flat(manager.disk.archive)) <==>
                 h !in old(manager.index.unsaved) && forall i :: 0 <= i < |failures| ==>
                   h !in HashesIn(Lost(failures[i])))
    ensures EndsFlushed(calls, results) ==>
              (manager.Tracked() <= HashSet(Flat(manager.disk.archive)) + old(manager.index.unsaved) <==>
               forall i :: 0 <= i < |failures| ==> Harmless(failures[i]))
    ensures |states| == |calls| + 1 && states[0] == old(manager.disk.archive) && states[|calls|] == manager.disk.archive
    ensures old(manager.index.Bounded() && !manager.index.Full()) && EndsFlushed(calls, results) ==>
              (BoundedFiles(manager.disk.archive.index) <==> !Overfills(calls, results, failures, states))
    ensures old(manager.index.Bounded() && !manager.index.Full()) &&
            (forall i :: 0 <= i < |failures| ==> !Overdue(failures[i])) ==>
              BoundedFiles(manager.disk.archive.index)
  {
    hide Manager.Valid, Manager.Tracked, HashesIn, HashSet, Flat, LostHashes, ReplyOk, Harmless, Lost, Outstanding,
         Overfills, Overdue, Wrote, BlobIndex.Bounded, BlobIndex.Full;
    results, failed, failures, states := [], [], [], [manager.disk.archive];
    NothingYet(calls, states);
    NothingLost();
    var i := 0;
    while i < |calls|
      invariant 0 <= i <= |calls| && i == |results|
      invariant manager.Valid() && old(manager.disk.history) <= manager.disk.history
      invariant RepliesOk(calls, results, failed, failures)
      invariant manager.index.unsaved == old(manager.index.unsaved) + LostHashes(failures)
      invariant LostHashes(failures) !! old(manager.index.unsaved)
      invariant forall j :: 0 <= j < i && calls[j].Add? && (GoesOn(results[j]) || failed[j]) ==>
                  calls[j].blob.hash in manager.Tracked()
      invariant EndsFlushed(calls, results) ==>
                  manager.Tracked() == HashSet(Flat(manager.disk.archive)) + manager.index.unsaved &&
                  HashSet(Flat(manager.disk.archive)) !! manager.index.unsaved && manager.index.itemsBuf == []
      invariant |states| == i + 1 && states[0] == old(manager.disk.archive) && states[i] == manager.disk.archive
      invariant old(manager.index.Bounded() && !manager.index.Full()) ==>
                  (manager.index.Bounded() <==> !Overfills(calls, results, failures, states)) &&
                  (manager.index.Full() <==> Outstanding(calls, results, failures, states, i))
    {
      var result, wrong; ghost var failure;
      result, wrong, failure := MakeCall(manager, calls[i]);
      LostSnoc(failures, failure);
      OverfillsSnoc(calls, results, failures, states, result, failure, manager.disk.archive);
      results, failed, failures := results + [result], failed + [wrong], failures + [failure];
      states := states + [manager.disk.archive];
      i := i + 1;
    }
    NothingOverfills(calls, results, failures, states);
    BoundedFacts(manager);
    WhatIsLost(manager.Tracked(), HashSet(Flat(manager.disk.archive)), old(manager.index.unsaved), calls, results,
               failed, failures);
  }

  lemma {:induction false} NothingYet(calls: seq<StoreCall>, states: seq<Archive>)
    requires |states| == 1
    ensures !Overfills(calls, [], [], states) && !Outstanding(calls, [], [], states, 0)
  {
  }

  lemma {:induction false} BoundedFacts(manager: Manager)
    requires manager.Valid()
    ensures manager.index.Bounded() ==> BoundedFiles(manager.disk.archive.index)
    ensures BoundedFiles(manager.disk.archive.index) && manager.index.itemsBuf == [] ==> manager.index.Bounded()
  {
    hide QueueOk, FirstsQueued, BlobIndex.AgreesWith, Disk.Valid, BoundedFiles;
  }

  lemma {:induction false} NothingLost()
    ensures LostHashes([]) == {}
  {
  }

  /** The end of MakeCalls: what is tracked is indexed, or lost before, or lost by one of the calls. */
  lemma {:induction false} WhatIsLost(tracked: set<Hash>, indexed: set<Hash>, before: set<Hash>, calls: seq<StoreCall>,
                                      results: seq<Result<Option<nat>, PackfileError>>, failed: seq<bool>,
                                      failures: seq<Failure>)
    requires RepliesOk(calls, results, failed, failures) && LostHashes(failures) !! before
    ensures tracked == indexed + (before + LostHashes(failures)) && indexed !! (before + LostHashes(failures)) ==>
              (forall h :: h in tracked ==>
                 (h in indexed <==> h !in before && forall i :: 0 <= i < |failures| ==>
                  h !in HashesIn(Lost(failures[i])))) &&
              (tracked <= indexed + before <==> forall i :: 0 <= i < |failures| ==> Harmless(failures[i]))
  {
    assert forall i :: 0 <= i < |failures| ==> FailureOk(failures[i]) by {
      assert forall i :: 0 <= i < |results| ==> ReplyOk(calls[i], results[i], failed[i], failures[i]);
    }
    hide HashesIn, LostHashes, Harmless, Lost, FailureOk, RepliesOk;
    AllHarmless(failures);
    forall h
      ensures h in LostHashes(failures) <==> exists i :: 0 <= i < |failures| && h in HashesIn(Lost(failures[i]))
    {
      LostIn(failures, h);
    }
    if tracked <= indexed + before && tracked == indexed + (before + LostHashes(failures)) &&
    indexed !! (before + LostHashes(failures)) {
      assert LostHashes(failures) == {};
    }
  }

  /** The failing input, for every folder and every blob that is not in it: with no random id to be had,
      adding the blob or flushing fails; yet adding it again and flushing again both succeed, and after
      reopening the blob is not there. */
  method FailedWriteLosesBlob(disk: Disk, blob: Blob, nonce: Nonce)
      returns (added: Result<Option<nat>, PackfileError>, flushed: Result<(), PackfileError>,
               addedAgain: Result<Option<nat>, PackfileError>, flushedAgain: Result<(), PackfileError>,
               found: Result<Option<Blob>, PackfileError>)
    requires disk.Valid() && disk.Reliable() && |disk.archive.index| + 2 < U32_MAX
    requires |blob.data| <= BLOB_MAX && blob.hash !in HashSet(Flat(disk.archive))
    modifies disk
    ensures (added == Ok(None) && flushed == Err(GetrandomError)) || added == Err(GetrandomError)
    ensures addedAgain == Ok(None) && flushedAgain.Ok? && found == Ok(None)
  {
    hide BlobIndex.Bounded, BlobIndex.Full, BlobIndex.Trim, Disk.Valid, HashSet, Flat, HashesIn, Manager.Valid,
         Manager.Tracked, Manager.Spare, Disk.Complete, SortedByHash, UniqueHashes;
    var opening := Manager.Open(disk, 0, [], [nonce]);
    added, flushed := FailToStore(opening.value, blob);
    addedAgain, flushedAgain := AddLostBlob(opening.value, blob);
    opening.value.UnsavedFacts();
    var reopening := Manager.Open(disk, 0, [], []);
    found := reopening.value.GetBlob(blob.hash);
    ReadsNothing(disk, reopening.value.index.items, blob.hash);
  }

  /** The first half: whichever call fails, exactly this hash is lost. */
  method FailToStore(manager: Manager, blob: Blob)
      returns (added: Result<Option<nat>, PackfileError>, flushed: Result<(), PackfileError>)
    requires manager.Valid() && manager.disk.Reliable() && manager.randomIds == [] && |manager.randomNonces| == 1
    requires manager.Tracked() == manager.KnownSet() && manager.index.unsaved == {} &&
             manager.index.lastFileNum + 2 < U32_MAX
    requires |blob.data| <= BLOB_MAX && blob.hash !in manager.Tracked()
    modifies manager, manager.index, manager.disk
    ensures manager.Valid() && manager.disk.Reliable() && manager.randomIds == []
    ensures (added == Ok(None) && flushed == Err(GetrandomError)) || added == Err(GetrandomError)
    ensures manager.index.unsaved == {blob.hash} && manager.Tracked() == manager.KnownSet()
    ensures manager.index.lastFileNum + 1 < U32_MAX
  {
    hide BlobIndex.Bounded, BlobIndex.Full, BlobIndex.Trim, Disk.Valid, HashSet, Flat, HashesIn, Manager.Valid, Lost,
         Manager.Tracked, Manager.KnownSet, Manager.Spare, Disk.Complete, FailureOk, Reports, Batch, Plain,
         Disk.Reliable;
    added := AddWithoutIds(manager, blob);
    ghost var tracked, known := manager.Tracked(), manager.KnownSet();
    ghost var failure;
    flushed, failure := manager.Flush();
    LostWithoutIds(failure);
    OnlyThis(blob.hash, Lost(failure), tracked, known);
    manager.UnsavedFacts();
  }

  /** The blob waits, or is lost at once. */
  method AddWithoutIds(manager: Manager, blob: Blob) returns (added: Result<Option<nat>, PackfileError>)
    requires manager.Valid() && manager.randomIds == [] && |manager.randomNonces| == 1
    requires manager.Tracked() == manager.KnownSet() && manager.index.unsaved == {} && manager.disk.Reliable()
    requires |blob.data| <= BLOB_MAX && blob.hash !in manager.Tracked()
    modifies manager, manager.index, manager.disk
    ensures manager.Valid() && manager.disk.Reliable() && manager.randomIds == []
    ensures manager.index.lastFileNum == old(manager.index.lastFileNum)
    ensures manager.KnownSet() <= manager.Tracked() == old(manager.Tracked()) + {blob.hash} &&
            old(manager.KnownSet()) <= manager.KnownSet()
    ensures added == Ok(None) || added == Err(GetrandomError)
    ensures added == Ok(None) ==> manager.index.unsaved == {} && blob.hash !in manager.KnownSet()
    ensures added != Ok(None) ==> manager.index.unsaved == {blob.hash} && blob.hash in manager.KnownSet()
  {
    hide NewFiles, SizesOf, Total, OverLimit, BlobIndex.Bounded, BlobIndex.Full, BlobIndex.Trim, Disk.Valid, HashSet,
         Flat, HashesIn, Manager.Valid, Lost, Manager.Tracked, Manager.KnownSet, Manager.Spare, Disk.Complete,
         FailureOk, Reports, Batch, Plain, Disk.Reliable;
    ghost var failure, ids;
    ghost var known := manager.KnownSet();
    added, failure, ids := manager.AddBlob(blob);
    LostWithoutIds(failure);
    OnlyThis(blob.hash, Lost(failure), manager.Tracked(), known);
    manager.UnsavedFacts();
  }

  /** What a call without ids loses: something if it fails. */
  lemma {:induction false} LostWithoutIds(f: Failure)
    ensures Lost(NoFailure) == []
    ensures FailureOk(f) && Reports(f, GetrandomError) ==> Lost(f) != []
  {
    BatchIsSome(Lost(f));
  }

  lemma {:induction false} OnlyThis(h: Hash, lost: seq<BlobEncrypted>, tracked: set<Hash>, known: set<Hash>)
    requires HashesIn(lost) <= tracked - known && tracked <= known + {h}
    ensures HashesIn(lost) == if lost == [] then {} else {h}
  {
    SomeHash(lost);
  }

  /** The second half: adding again does nothing, and flushing succeeds. */
  method AddLostBlob(manager: Manager, blob: Blob)
      returns (added: Result<Option<nat>, PackfileError>, flushed: Result<(), PackfileError>)
    requires manager.Valid() && manager.disk.Reliable() && manager.randomIds == [] && |blob.data| <= BLOB_MAX
    requires manager.index.unsaved == {blob.hash} && manager.Tracked() == manager.KnownSet()
    requires manager.index.lastFileNum + 1 < U32_MAX
    modifies manager, manager.index, manager.disk
    ensures manager.Valid()
    ensures added == Ok(None) && flushed.Ok? && blob.hash !in HashSet(Flat(manager.disk.archive))
  {
    hide NewFiles, SizesOf, Total, OverLimit, BlobIndex.Bounded, BlobIndex.Full, BlobIndex.Trim, HashSet, Flat,
         HashesIn, Manager.Valid, Manager.Tracked, Manager.KnownSet, Manager.Spare, Disk.Complete, Plain, Reports,
         Batch;
    ghost var failure, ids;
    manager.UnsavedFacts();
    added, failure, ids := manager.AddBlob(blob);
    assert manager.Tracked() == manager.KnownSet();
    flushed, failure := manager.Flush();
  }

  lemma {:induction false} ReadsNothing(disk: Disk, items: seq<Entry>, hash: Hash)
    requires multiset(items) == multiset(Flat(disk.archive)) && hash !in HashSet(Flat(disk.archive))
    ensures forall e :: e in items ==> e.0 != hash
  {
    SameHashes(items, Flat(disk.archive));
  }
}
