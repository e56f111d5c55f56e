/** What a session is for: as long as both ends keep in step, the next file can always be sent, stored,
    acknowledged and let go of. */
module Exchanges {
  import opened Wrappers
  import opened ByteStrings
  import opened Primitives
  import opened FileNames
  import opened Obfuscation
  import opened Peers
  import opened Sessions
  import opened Transfers

  /** Everything signed in the session so far has been saved, acknowledged and heard of. */
  ghost predicate InStep(s: Session) {
    s.sender.Idle? && s.receiver.Ready? && |s.saved| == |s.acks| == |s.signed| == s.messagesReceived &&
    s.msgCounter == |s.signed| + 1 && s.dataMsgCounter == |s.signed| + 1
  }

  /** The peer would store this file: it is small enough and new, and the quota is not used up. */
  ghost predicate WouldStore(peer: Peer, file: FileInfo, data: Bytes) {
    |data| <= 8_388_608 && file !in peer.disk &&
    peer.row.Some? && peer.row.value.bytesReceived < peer.row.value.bytesNegotiated + 16_777_216
  }

  /** Session i can send this file now. */
  ghost predicate CanSend(w: World, i: nat, file: FileInfo) {
    IsPeer(w, i) && InStep(w.sessions[i]) && file in w.files && (file.Packfile? ==> file in w.local) &&
    WouldStore(w.peers[w.sessions[i].peer], file, w.files[file])
  }

  /** What the network and the peer do about the n-th message of session i, counted from 0: it arrives, is stored
      and counted, and the acknowledgement arrives. */
  function Delivery(i: nat, n: nat): seq<Event> {
    [DeliverMessage(i, i, n), FindPathFree(i), Permit(i), Write(i), Count(i), Acknowledge(i), DeliverAck(i, i, n)]
  }

  /** The whole exchange over one file. */
  function Exchange(i: nat, n: nat, file: FileInfo): seq<Event> {
    [Send(i, file), Listen(i)] + Delivery(i, n) + [Return(i), Account(i), Conclude(i)]
  }

  lemma {:induction false} RunAppend(w: World, first: seq<Event>, second: seq<Event>)
    requires Runs(w, first) && Runs(Run(w, first), second)
    ensures Runs(w, first + second) && Run(w, first + second) == Run(Run(w, first), second)
    decreases |first|
  {
    hide Next, Enabled;
    if first == [] {
      assert first + second == second;
    } else {
      assert (first + second)[1..] == first[1..] + second;
      RunAppend(Next(w, first[0]), first[1..], second);
    }
  }

  lemma {:induction false} RunOne(w: World, e: Event, w': World)
    requires Enabled(w, e) && w' == Next(w, e)
    ensures Runs(w, [e]) && Run(w, [e]) == w'
  {
    hide Next, Enabled;
    assert Runs(w', []) && Run(w', []) == w';
  }

  lemma {:induction false} RunMore(w: World, events: seq<Event>, w1: World, e: Event, w': World)
    requires Runs(w, events) && Run(w, events) == w1 && Enabled(w1, e) && w' == Next(w1, e)
    ensures Runs(w, events + [e]) && Run(w, events + [e]) == w'
  {
    hide Next, Enabled;
    RunOne(w1, e, w');
    RunAppend(w, events, [e]);
  }

  // ----- The stages of an exchange -----

  /** The message is on its way and its acknowledgement is listened for. */
  ghost predicate Waiting(w0: World, w: World, i: nat, file: FileInfo) {
    i < |w0.sessions| && file in w0.files &&
    w == w0.(sessions := w0.sessions[i := w0.sessions[i].(signed := w0.sessions[i].signed + [Msg(file, w0.files[file])],
                                                         sender := Listening)])
  }

  lemma {:induction false} Starts(w: World, i: nat, file: FileInfo) returns (w': World)
    requires CanSend(w, i, file)
    ensures Waiting(w, w', i, file)
    ensures Enabled(w, Send(i, file)) && Enabled(Next(w, Send(i, file)), Listen(i))
    ensures w' == Next(Next(w, Send(i, file)), Listen(i))
    ensures Runs(w, [Send(i, file), Listen(i)]) && Run(w, [Send(i, file), Listen(i)]) == w'
  {
    var w1 := Next(w, Send(i, file));
    w' := Next(w1, Listen(i));
    assert w'.sessions == w.sessions[i := w'.sessions[i]];
    RunOne(w, Send(i, file), w1);
    RunMore(w, [Send(i, file)], w1, Listen(i), w');
    assert [Send(i, file)] + [Listen(i)] == [Send(i, file), Listen(i)];
  }

  /** What the peer and the session are after the delivery of a file. */
  ghost predicate Delivered(w0: World, w: World, i: nat, file: FileInfo) {
    IsPeer(w0, i) && file in w0.files && w0.peers[w0.sessions[i].peer].row.Some? &&
    var s, p, data := w0.sessions[i], w0.sessions[i].peer, w0.files[file];
    var peer := w0.peers[p];
    var row := peer.row.value;
    w.peers == w0.peers[p := Peer(peer.key, peer.disk[file := Obfuscated(data, peer.key)],
                                  Some(row.(bytesReceived := row.bytesReceived + |data|)))] &&
    w.files == w0.files && w.local == w0.local && w.packed == w0.packed &&
    w.highestSentIndex == w0.highestSentIndex && w.ledger == w0.ledger &&
    |w.sessions| == |w0.sessions| &&
    (forall j :: 0 <= j < |w.sessions| && j != i ==> w.sessions[j] == w0.sessions[j]) &&
    w.sessions[i] == s.(sender := Heard, messagesReceived := s.messagesReceived + 1,
                        dataMsgCounter := s.dataMsgCounter + 1, receiver := Ready,
                        acks := s.acks + [s.dataMsgCounter], saved := s.saved + [Msg(file, data)],
                        counted := s.counted + |data|)
  }

  ghost predicate AwaitsDelivery(w: World, i: nat, file: FileInfo) {
    IsPeer(w, i) && file in w.files && WouldStore(w.peers[w.sessions[i].peer], file, w.files[file]) &&
    var s := w.sessions[i];
    s.sender.Listening? && s.receiver.Ready? && |s.saved| == |s.acks| == s.messagesReceived &&
    |s.signed| == |s.acks| + 1 && s.signed[|s.acks|] == Msg(file, w.files[file]) &&
    s.msgCounter == |s.signed| && s.dataMsgCounter == |s.signed|
  }

  lemma {:induction false} Arrives(w: World, i: nat, file: FileInfo) returns (w': World)
    requires AwaitsDelivery(w, i, file)
    ensures var events := [DeliverMessage(i, i, |w.sessions[i].acks|)]; Runs(w, events) && Run(w, events) == w'
    ensures var s := w.sessions[i];
            w' == w.(sessions := w.sessions[i := s.(dataMsgCounter := s.dataMsgCounter + 1,
                                                    receiver := Validated(Msg(file, w.files[file])))])
  {
    w' := Next(w, DeliverMessage(i, i, |w.sessions[i].acks|));
    assert w'.sessions == w.sessions[i := w'.sessions[i]];
    RunOne(w, DeliverMessage(i, i, |w.sessions[i].acks|), w');
  }

  /** The path is free and the quota not used up. */
  lemma {:induction false} Passes(w: World, i: nat, m: Msg) returns (w': World)
    requires IsPeer(w, i) && w.sessions[i].receiver == Validated(m)
    requires WouldStore(w.peers[w.sessions[i].peer], m.file, m.data)
    ensures Runs(w, [FindPathFree(i), Permit(i)]) && Run(w, [FindPathFree(i), Permit(i)]) == w'
    ensures w' == w.(sessions := w.sessions[i := w.sessions[i].(receiver := Permitted(m))])
  {
    hide Obfuscated;
    var w1 := Next(w, FindPathFree(i));
    assert w1.sessions == w.sessions[i := w.sessions[i].(receiver := PathFree(m))];
    w' := Next(w1, Permit(i));
    assert w'.sessions == w.sessions[i := w'.sessions[i]];
    RunOne(w, FindPathFree(i), w1);
    RunMore(w, [FindPathFree(i)], w1, Permit(i), w');
    assert [FindPathFree(i)] + [Permit(i)] == [FindPathFree(i), Permit(i)];
  }

  lemma {:induction false} IsStored(w: World, i: nat, m: Msg) returns (w': World)
    requires IsPeer(w, i) && w.sessions[i].receiver == Permitted(m) && w.peers[w.sessions[i].peer].row.Some?
    ensures Runs(w, [Write(i), Count(i)]) && Run(w, [Write(i), Count(i)]) == w'
    ensures var s, p := w.sessions[i], w.sessions[i].peer;
            var peer := w.peers[p];
            var row := peer.row.value;
            w' == w.(sessions := w.sessions[i := s.(receiver := Counted, saved := s.saved + [m],
                                                    counted := s.counted + |m.data|)],
                     peers := w.peers[p := Peer(peer.key, peer.disk[m.file := Obfuscated(m.data, peer.key)],
                                                Some(row.(bytesReceived := row.bytesReceived + |m.data|)))])
  {
    hide Obfuscated;
    var w1 := Next(w, Write(i));
    assert w1.sessions == w.sessions[i := w1.sessions[i]];
    w' := Next(w1, Count(i));
    assert w'.sessions == w.sessions[i := w'.sessions[i]];
    assert w'.peers == w.peers[w.sessions[i].peer := w'.peers[w.sessions[i].peer]];
    RunOne(w, Write(i), w1);
    RunMore(w, [Write(i)], w1, Count(i), w');
    assert [Write(i)] + [Count(i)] == [Write(i), Count(i)];
  }

  /** The acknowledgement is sent and heard. */
  lemma {:induction false} IsHeard(w: World, i: nat) returns (w': World)
    requires i < |w.sessions| && w.sessions[i].receiver.Counted? && w.sessions[i].sender.Listening?
    requires |w.sessions[i].acks| == w.sessions[i].messagesReceived
    requires w.sessions[i].dataMsgCounter == w.sessions[i].msgCounter + 1
    ensures var events := [Acknowledge(i), DeliverAck(i, i, |w.sessions[i].acks|)];
            Runs(w, events) && Run(w, events) == w'
    ensures var s := w.sessions[i];
            w' == w.(sessions := w.sessions[i := s.(sender := Heard, messagesReceived := s.messagesReceived + 1,
                                                    receiver := Ready, acks := s.acks + [s.dataMsgCounter - 1])])
  {
    var n := |w.sessions[i].acks|;
    var w1 := Next(w, Acknowledge(i));
    assert w1.sessions == w.sessions[i := w1.sessions[i]];
    w' := Next(w1, DeliverAck(i, i, n));
    assert w'.sessions == w.sessions[i := w'.sessions[i]];
    RunOne(w, Acknowledge(i), w1);
    RunMore(w, [Acknowledge(i)], w1, DeliverAck(i, i, n), w');
    assert [Acknowledge(i)] + [DeliverAck(i, i, n)] == [Acknowledge(i), DeliverAck(i, i, n)];
  }

  lemma {:induction false} Delivers(w: World, i: nat, file: FileInfo) returns (w': World)
    requires AwaitsDelivery(w, i, file)
    ensures Runs(w, Delivery(i, |w.sessions[i].acks|)) && Run(w, Delivery(i, |w.sessions[i].acks|)) == w'
    ensures Delivered(w, w', i, file)
  {
    hide Next, Enabled, Runs, Run, Obfuscated;
    var n, m := |w.sessions[i].acks|, Msg(file, w.files[file]);
    var w1 := Arrives(w, i, file);
    var w2 := Passes(w1, i, m);
    var w3 := IsStored(w2, i, m);
    w' := IsHeard(w3, i);
    RunAppend(w, [DeliverMessage(i, i, n)], [FindPathFree(i), Permit(i)]);
    RunAppend(w, [DeliverMessage(i, i, n)] + [FindPathFree(i), Permit(i)], [Write(i), Count(i)]);
    RunAppend(w, [DeliverMessage(i, i, n)] + [FindPathFree(i), Permit(i)] + [Write(i), Count(i)],
              [Acknowledge(i), DeliverAck(i, i, n)]);
    DeliveryParts(i, n);
  }

  lemma {:induction false} DeliveryParts(i: nat, n: nat)
    ensures [DeliverMessage(i, i, n)] + [FindPathFree(i), Permit(i)] + [Write(i), Count(i)] +
            [Acknowledge(i), DeliverAck(i, i, n)] == Delivery(i, n)
  {
  }

  /** What an exchange leaves: the file is on the peer's disk, obfuscated, both ledgers have counted it, a
      packfile is gone from the local folder, an index file's number is recorded, and the session is in step. */
  ghost predicate Exchanged(w: World, w': World, i: nat, file: FileInfo) {
    IsPeer(w, i) && IsPeer(w', i) && file in w.files && w.peers[w.sessions[i].peer].row.Some? &&
    var p, data := w.sessions[i].peer, w.files[file];
    var peer := w.peers[p];
    var row := peer.row.value;
    w'.sessions[i].peer == p && InStep(w'.sessions[i]) &&
    w'.sessions[i].signed == w.sessions[i].signed + [Msg(file, data)] &&
    w'.sessions[i].saved == w.sessions[i].saved + [Msg(file, data)] &&
    w'.peers == w.peers[p := Peer(peer.key, peer.disk[file := Obfuscated(data, peer.key)],
                                  Some(row.(bytesReceived := row.bytesReceived + |data|)))] &&
    w'.files == w.files && w'.packed == w.packed &&
    w'.local == (if file.Packfile? then w.local - {file} else w.local) &&
    (file.Index? ==> w'.highestSentIndex == Some(file.number)) &&
    (file.Packfile? ==> w'.highestSentIndex == w.highestSentIndex) &&
    (p in w.ledger ==>
       p in w'.ledger && w'.ledger[p].bytesTransmitted == w.ledger[p].bytesTransmitted + |data|)
  }

  lemma {:induction false} IsAccounted(w: World, i: nat) returns (w': World)
    requires IsPeer(w, i) && w.sessions[i].sender.Heard? && w.sessions[i].signed != []
    ensures Runs(w, [Return(i), Account(i)]) && Run(w, [Return(i), Account(i)]) == w'
    ensures var s, amount := w.sessions[i], |Current(w.sessions[i]).data|;
            w' == w.(sessions := w.sessions[i := s.(msgCounter := s.msgCounter + 1, sender := Accounted,
                                                    accounted := s.accounted + amount)],
                     ledger := Transmitted(w.ledger, s.peer, amount))
  {
    hide Transmitted;
    var w1 := Next(w, Return(i));
    assert w1.sessions == w.sessions[i := w1.sessions[i]];
    w' := Next(w1, Account(i));
    assert w'.sessions == w.sessions[i := w'.sessions[i]];
    RunOne(w, Return(i), w1);
    RunMore(w, [Return(i)], w1, Account(i), w');
    assert [Return(i)] + [Account(i)] == [Return(i), Account(i)];
  }

  lemma {:induction false} Finishes(w: World, i: nat, file: FileInfo) returns (w': World)
    requires IsPeer(w, i) && w.sessions[i].sender.Heard? && w.sessions[i].signed != []
    requires Current(w.sessions[i]).file == file
    ensures Runs(w, [Return(i), Account(i), Conclude(i)]) && Run(w, [Return(i), Account(i), Conclude(i)]) == w'
    ensures var s, amount := w.sessions[i], |Current(w.sessions[i]).data|;
            w' == w.(sessions := w.sessions[i := s.(msgCounter := s.msgCounter + 1, sender := Idle,
                                                    accounted := s.accounted + amount)],
                     local := if file.Packfile? then w.local - {file} else w.local,
                     highestSentIndex := if file.Index? then Some(file.number) else w.highestSentIndex,
                     ledger := Transmitted(w.ledger, s.peer, amount))
  {
    hide Transmitted, Runs, Run;
    var w1 := IsAccounted(w, i);
    w' := Next(w1, Conclude(i));
    assert w'.sessions == w.sessions[i := w'.sessions[i]];
    RunMore(w, [Return(i), Account(i)], w1, Conclude(i), w');
    assert [Return(i), Account(i)] + [Conclude(i)] == [Return(i), Account(i), Conclude(i)];
  }

  lemma {:induction false} Completes(w: World, w1: World, w2: World, w3: World, i: nat, file: FileInfo)
    requires CanSend(w, i, file) && Waiting(w, w1, i, file) && Delivered(w1, w2, i, file)
    requires var s, amount := w2.sessions[i], |w.files[file]|;
             w3 == w2.(sessions := w2.sessions[i := s.(msgCounter := s.msgCounter + 1, sender := Idle,
                                                       accounted := s.accounted + amount)],
                       local := if file.Packfile? then w2.local - {file} else w2.local,
                       highestSentIndex := if file.Index? then Some(file.number) else w2.highestSentIndex,
                       ledger := Transmitted(w2.ledger, s.peer, amount))
    ensures Exchanged(w, w3, i, file)
  {
    hide Next, Enabled, Obfuscated;
  }

  /** A session in step can send any file that its peer would store: there is a run, of just this exchange, after
      which the peer has it and the session is in step again. */
  lemma {:induction false} NextFileGoesThrough(w: World, i: nat, file: FileInfo)
    requires CanSend(w, i, file)
    ensures var events := Exchange(i, |w.sessions[i].signed|, file);
            Runs(w, events) && Exchanged(w, Run(w, events), i, file)
  {
    var n := |w.sessions[i].signed|;
    var w1 := Starts(w, i, file);
    var w2 := Delivers(w1, i, file);
    var w3 := Finishes(w2, i, file);
    hide Runs, Run, Next, Enabled, Obfuscated;
    Completes(w, w1, w2, w3, i, file);
    hide Exchanged;
    RunAppend(w, [Send(i, file), Listen(i)], Delivery(i, n));
    RunAppend(w, [Send(i, file), Listen(i)] + Delivery(i, n), [Return(i), Account(i), Conclude(i)]);
  }

  // ----- Any number of files -----

  ghost function TotalSize(files: map<FileInfo, Bytes>, listing: seq<FileInfo>): nat
    requires forall f :: f in listing ==> f in files
  {
    if listing == [] then 0 else |files[listing[0]]| + TotalSize(files, listing[1..])
  }

  ghost function Contents(files: map<FileInfo, Bytes>, listing: seq<FileInfo>): seq<Msg>
    requires forall f :: f in listing ==> f in files
  {
    seq(|listing|, k requires 0 <= k < |listing| => Msg(listing[k], files[listing[k]]))
  }

  /** Peer p could be sent these files one after the other: all are written, none too large, none repeated, none
      known to the peer, and before each of them the quota is not used up. */
  ghost predicate CanReceive(w: World, p: ClientId, listing: seq<FileInfo>) {
    p in w.peers && w.peers[p].row.Some? &&
    (forall f :: f in listing ==>
       f in w.files && |w.files[f]| <= 8_388_608 && (f.Packfile? ==> f in w.local) && f !in w.peers[p].disk) &&
    (forall j, k :: 0 <= j < k < |listing| ==> listing[j] != listing[k]) &&
    var row := w.peers[p].row.value;
    forall k :: 0 <= k < |listing| ==>
      row.bytesReceived + TotalSize(w.files, listing[..k]) < row.bytesNegotiated + 16_777_216
  }

  ghost predicate CanSendAll(w: World, i: nat, listing: seq<FileInfo>) {
    IsPeer(w, i) && InStep(w.sessions[i]) && CanReceive(w, w.sessions[i].peer, listing)
  }

  /** Afterwards the peer has saved all of them, in this order, and the sent packfiles are no longer local. */
  ghost predicate AllExchanged(w: World, w': World, i: nat, listing: seq<FileInfo>) {
    (forall f :: f in listing ==> f in w.files) && IsPeer(w, i) && IsPeer(w', i) &&
    w'.sessions[i].peer == w.sessions[i].peer && InStep(w'.sessions[i]) &&
    w'.files == w.files && w'.packed == w.packed &&
    w'.sessions[i].saved == w.sessions[i].saved + Contents(w.files, listing) &&
    var peer, peer' := w.peers[w.sessions[i].peer], w'.peers[w.sessions[i].peer];
    (forall f :: f in peer.disk || f in listing ==> f in peer'.disk) &&
    (forall f :: f in listing ==> peer'.disk[f] == Obfuscated(w.files[f], peer.key)) &&
    peer'.key == peer.key &&
    (forall f :: f in peer.disk && f !in listing ==> f in peer'.disk && peer'.disk[f] == peer.disk[f]) &&
    forall f :: f in w'.local <==> f in w.local && !(f in listing && f.Packfile?)
  }

  lemma {:induction false} FirstCanBeSent(w: World, i: nat, listing: seq<FileInfo>)
    requires CanSendAll(w, i, listing) && listing != []
    ensures CanSend(w, i, listing[0])
  {
    hide InStep;
    assert TotalSize(w.files, listing[..0]) == 0;
  }

  lemma {:induction false} OthersCanBeSent(w: World, w1: World, i: nat, listing: seq<FileInfo>)
    requires CanSendAll(w, i, listing) && listing != [] && Exchanged(w, w1, i, listing[0])
    ensures CanSendAll(w1, i, listing[1..])
  {
    hide InStep, Obfuscated;
    var rest := listing[1..];
    assert forall f :: f in rest ==> f in listing && f != listing[0];
    forall k | 0 <= k < |rest|
      ensures TotalSize(w.files, listing[..k + 1]) == |w.files[listing[0]]| + TotalSize(w.files, rest[..k])
    {
      assert listing[..k + 1][1..] == rest[..k];
    }
  }

  lemma {:induction false} FirstThenOthers(w: World, w1: World, w2: World, i: nat, listing: seq<FileInfo>)
    requires CanSendAll(w, i, listing) && listing != []
    requires Exchanged(w, w1, i, listing[0]) && AllExchanged(w1, w2, i, listing[1..])
    ensures AllExchanged(w, w2, i, listing)
  {
    hide InStep, Obfuscated, TotalSize;
    assert forall f :: f in listing <==> f == listing[0] || f in listing[1..];
    assert listing[0] !in listing[1..];
    assert Contents(w.files, listing) == [Msg(listing[0], w.files[listing[0]])] + Contents(w.files, listing[1..]);
  }

  /** One session can carry any number of files: there is a run after which the peer has all of them. */
  lemma {:induction false} AllFilesGoThrough(w: World, i: nat, listing: seq<FileInfo>) returns (events: seq<Event>)
    requires CanSendAll(w, i, listing)
    ensures Runs(w, events) && AllExchanged(w, Run(w, events), i, listing)
    decreases |listing|
  {
    if listing == [] {
      events := [];
    } else {
      hide CanSendAll, CanSend, Exchanged, AllExchanged, Runs, Run, Exchange;
      FirstCanBeSent(w, i, listing);
      var first := Exchange(i, |w.sessions[i].signed|, listing[0]);
      NextFileGoesThrough(w, i, listing[0]);
      var w1 := Run(w, first);
      OthersCanBeSent(w, w1, i, listing);
      var others := AllFilesGoThrough(w1, i, listing[1..]);
      FirstThenOthers(w, w1, Run(w1, others), i, listing);
      RunAppend(w, first, others);
      events := first + others;
    }
  }

  /** So can one that is opened for it. */
  lemma {:induction false} NewSessionCarriesAll(w: World, p: ClientId, nonce: TransportSessionNonce,
                                                listing: seq<FileInfo>) returns (events: seq<Event>)
    requires CanReceive(w, p, listing) && forall s :: s in w.sessions ==> s.nonce != nonce
    ensures Runs(w, events) && p in Run(w, events).peers
    ensures var peer, peer' := w.peers[p], Run(w, events).peers[p];
            forall f :: f in listing ==> f in peer'.disk && peer'.disk[f] == Obfuscated(w.files[f], peer.key)
  {
    hide Obfuscated;
    var w1 := Next(w, Open(p, nonce));
    assert InStep(NewSession(p, nonce)) && w1.sessions[|w.sessions|] == NewSession(p, nonce);
    assert w1.peers == w.peers && w1.files == w.files && w1.local == w.local;
    RunOne(w, Open(p, nonce), w1);
    hide Runs, Run, Next, Enabled;
    events := AllFilesGoThrough(w1, |w.sessions|, listing);
    RunAppend(w, [Open(p, nonce)], events);
    events := [Open(p, nonce)] + events;
  }
}
