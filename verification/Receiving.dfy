/** The peer's end of a transfer: messages are validated against the replay protection header, files are
    stored obfuscated under a path that must be free, and each stored file is acknowledged. */
module Receiving {
  import opened Wrappers
  import opened ByteStrings
  import opened Primitives
  import opened FileNames
  import opened Obfuscation
  import opened Peers
  import opened Sessions

  type Folder = map<seq<string>, Bytes>

  /** What arrives on the socket. `signed` says whether the signature is the source's; a message over the
      socket's limit is an error of the socket. */
  datatype Incoming = Binary(signed: bool, header: Header, msg: Msg) | CloseFrame | OtherFrame | SocketError

  datatype Ack = Ack(header: Header, acknowledged: int)

  datatype ReceiveError = InvalidMessage | NotSaved | Disconnected | AckNotSent

  predicate Validates(m: Incoming, nonce: TransportSessionNonce, counter: nat) {
    m.Binary? && m.signed && MessageIsValid(m.header, nonce, counter)
  }

  predicate Allowed(ledger: Ledger, peer: ClientId) {
    peer in ledger && IsPeerAllowedToSendData(ledger[peer])
  }

  function StoredAll(folder: Folder, msgs: seq<Incoming>, key: ObfuscationKey): Folder {
    if msgs == [] then folder
    else
      var before := StoredAll(folder, msgs[..|msgs| - 1], key);
      var m := msgs[|msgs| - 1];
      if m.Binary? then before[PathOf(m.msg.file) := Obfuscated(m.msg.data, key)] else before
  }

  function CountedAll(ledger: Ledger, msgs: seq<Incoming>, peer: ClientId): Ledger {
    if msgs == [] then ledger
    else
      var before := CountedAll(ledger, msgs[..|msgs| - 1], peer);
      var m := msgs[|msgs| - 1];
      if m.Binary? then Received(before, peer, |m.msg.data|) else before
  }

  /** The k-th message passes its three checks: valid header, free path, quota not exceeded. */
  ghost predicate AcceptedAt(folder: Folder, ledger: Ledger, msgs: seq<Incoming>, k: nat, nonce: TransportSessionNonce,
                             peer: ClientId, key: ObfuscationKey)
    requires k < |msgs|
  {
    Validates(msgs[k], nonce, k + 1) &&
    PathOf(msgs[k].msg.file) !in StoredAll(folder, msgs[..k], key) && Allowed(CountedAll(ledger, msgs[..k], peer), peer)
  }

  ghost predicate Accepted(folder: Folder, ledger: Ledger, msgs: seq<Incoming>, nonce: TransportSessionNonce,
                           peer: ClientId, key: ObfuscationKey)
  {
    forall k :: 0 <= k < |msgs| ==> AcceptedAt(folder, ledger, msgs, k, nonce, peer, key)
  }

  // ----- Streams that are accepted as a whole -----

  /** Bytes in the first k messages. */
  function DataBefore(msgs: seq<Incoming>, k: nat): nat
    requires k <= |msgs|
  {
    if k == 0 then 0 else DataBefore(msgs, k - 1) + if msgs[k - 1].Binary? then |msgs[k - 1].msg.data| else 0
  }

  /** Every message is the sender's, of this session and numbered from 1 on; no file is stored already or comes
      twice; and the peer is within its quota, 16 MiB above what was negotiated, before each of them. */
  ghost predicate Welcome(folder: Folder, ledger: Ledger, msgs: seq<Incoming>, nonce: TransportSessionNonce,
                          peer: ClientId)
  {
    (forall k :: 0 <= k < |msgs| ==> msgs[k].Binary? && msgs[k].signed && msgs[k].header == Header(k + 1, nonce)) &&
    (forall k :: 0 <= k < |msgs| && msgs[k].Binary? ==> PathOf(msgs[k].msg.file) !in folder) &&
    (forall j, k :: 0 <= j < k < |msgs| && msgs[j].Binary? && msgs[k].Binary? ==>
       msgs[j].msg.file != msgs[k].msg.file) &&
    peer in ledger &&
    forall k :: 0 <= k < |msgs| ==>
      ledger[peer].bytesReceived + DataBefore(msgs, k) < ledger[peer].bytesNegotiated + 16_777_216
  }

  lemma {:induction false} StoredPaths(folder: Folder, msgs: seq<Incoming>, n: nat, key: ObfuscationKey,
                                       path: seq<string>)
    requires n <= |msgs| && path in StoredAll(folder, msgs[..n], key)
    ensures path in folder || exists j :: 0 <= j < n && msgs[j].Binary? && PathOf(msgs[j].msg.file) == path
  {
    hide PathOf, Obfuscated;
    if n > 0 {
      assert msgs[..n][..n - 1] == msgs[..n - 1];
      if path in StoredAll(folder, msgs[..n - 1], key) {
        StoredPaths(folder, msgs, n - 1, key, path);
      }
    }
  }

  lemma {:induction false} CountedRow(ledger: Ledger, msgs: seq<Incoming>, n: nat, peer: ClientId)
    requires n <= |msgs| && peer in ledger
    ensures var counted := CountedAll(ledger, msgs[..n], peer);
            peer in counted && counted[peer].bytesNegotiated == ledger[peer].bytesNegotiated &&
            counted[peer].bytesReceived == ledger[peer].bytesReceived + DataBefore(msgs, n)
  {
    if n > 0 {
      assert msgs[..n][..n - 1] == msgs[..n - 1];
      CountedRow(ledger, msgs, n - 1, peer);
    }
  }

  /** After any number of its messages, the next one passes the three checks. */
  lemma {:induction false} WelcomeNext(folder: Folder, ledger: Ledger, msgs: seq<Incoming>,
                                       nonce: TransportSessionNonce, peer: ClientId, key: ObfuscationKey, n: nat)
    requires Welcome(folder, ledger, msgs, nonce, peer) && n < |msgs|
    ensures Validates(msgs[n], nonce, n + 1)
    ensures PathOf(msgs[n].msg.file) !in StoredAll(folder, msgs[..n], key)
    ensures Allowed(CountedAll(ledger, msgs[..n], peer), peer)
  {
    hide PathOf, StoredAll, CountedAll;
    CountedRow(ledger, msgs, n, peer);
    if PathOf(msgs[n].msg.file) in StoredAll(folder, msgs[..n], key) {
      StoredPaths(folder, msgs, n, key, PathOf(msgs[n].msg.file));
      var j :| 0 <= j < n && msgs[j].Binary? && PathOf(msgs[j].msg.file) == PathOf(msgs[n].msg.file);
      PathsAreDistinct(msgs[j].msg.file, msgs[n].msg.file);
    }
  }

  function AcksFor(nonce: TransportSessionNonce, n: nat): seq<Ack> {
    seq(n, k requires 0 <= k < n => Ack(Header(k, nonce), k + 1))
  }

  class PeerDataReceiver {
    const peerId: ClientId
    const obfuscationKey: ObfuscationKey
    const peers: PeerStore
    var folder: Folder

    constructor (peerId: ClientId, key: ObfuscationKey, peers: PeerStore, folder: Folder)
      ensures this.peerId == peerId && this.obfuscationKey == key && this.peers == peers && this.folder == folder
    {
      this.peerId, this.obfuscationKey, this.peers, this.folder := peerId, key, peers, folder;
    }

    /** Stores one file, unless its path is taken or the peer is unknown or over its quota. */
    method SaveFile(path: seq<string>, data: array<byte>) returns (ok: bool)
      modifies this`folder, peers, data
      ensures ok <==> path !in old(folder) && Allowed(old(peers.ledger), peerId)
      ensures folder == if ok then old(folder)[path := Obfuscated(old(data[..]), obfuscationKey)] else old(folder)
      ensures peers.ledger == if ok then Received(old(peers.ledger), peerId, data.Length) else old(peers.ledger)
    {
      hide Obfuscated;
      if path in folder {
        return false;
      }
      var peer := peers.GetPeerInfo(peerId);
      if peer.None? || !IsPeerAllowedToSendData(peer.value) {
        return false;
      }
      Obfuscate(data, obfuscationKey);
      folder := folder[path := data[..]];
      peers.PeerIncrementReceived(peerId, data.Length);
      ok := true;
    }

    /** Handles the messages of a session until the sender closes it, it ends, the socket fails, a message is
        refused or an acknowledgement cannot be sent. The messages accepted are exactly the first ones, each
        stored and counted in turn; all of them are acknowledged, except for the last if that fails. */
    method HandleStream(nonce: TransportSessionNonce, stream: seq<Incoming>, ackSent: nat -> bool)
        returns (r: Result<(), ReceiveError>, acks: seq<Ack>, ghost accepted: nat)
      modifies this`folder, peers
      ensures accepted <= |stream| && acks == AcksFor(nonce, |acks|)
      ensures accepted == if r == Err(AckNotSent) then |acks| + 1 else |acks|
      ensures forall k :: 0 <= k < |acks| ==> ackSent(k)
      ensures Accepted(old(folder), old(peers.ledger), stream[..accepted], nonce, peerId, obfuscationKey)
      ensures folder == StoredAll(old(folder), stream[..accepted], obfuscationKey)
      ensures peers.ledger == CountedAll(old(peers.ledger), stream[..accepted], peerId)
      ensures r == Err(AckNotSent) ==> !ackSent(|acks|)
      ensures r != Err(AckNotSent) ==> (r.Ok? <==> accepted == |stream| || stream[accepted].CloseFrame?)
      ensures r == Err(Disconnected) <==> r != Err(AckNotSent) && accepted < |stream| && stream[accepted].SocketError?
      ensures r == Err(NotSaved) ==>
                Validates(stream[accepted], nonce, accepted + 1) &&
                (PathOf(stream[accepted].msg.file) in folder || !Allowed(peers.ledger, peerId))
      ensures r == Err(InvalidMessage) ==>
                !Validates(stream[accepted], nonce, accepted + 1) &&
                !(stream[accepted].Binary? && stream[accepted].signed &&
                  stream[accepted].header == Header(accepted + 1, nonce))
      ensures Welcome(old(folder), old(peers.ledger), stream, nonce, peerId) &&
              (forall k :: 0 <= k < |stream| ==> ackSent(k)) ==>
                r == Ok(()) && accepted == |stream| && acks == AcksFor(nonce, |stream|)
    {
      hide Obfuscated, Validates, Allowed, PathOf, Welcome;
      var dataMsgCounter, ackMsgCounter := 1, 0;
      acks, accepted := [], 0;
      var n := 0;
      while n < |stream|
        invariant 0 <= n <= |stream| && n == |acks| == ackMsgCounter == dataMsgCounter - 1 == accepted
        invariant acks == AcksFor(nonce, n) && forall k :: 0 <= k < n ==> ackSent(k)
        invariant folder == StoredAll(old(folder), stream[..n], obfuscationKey)
        invariant peers.ledger == CountedAll(old(peers.ledger), stream[..n], peerId)
        invariant Accepted(old(folder), old(peers.ledger), stream[..n], nonce, peerId, obfuscationKey)
      {
        var incoming := stream[n];
        if Welcome(old(folder), old(peers.ledger), stream, nonce, peerId) {
          WelcomeNext(old(folder), old(peers.ledger), stream, nonce, peerId, obfuscationKey, n);
          ValidatesBinary(incoming, nonce, n + 1);
        }
        if incoming.CloseFrame? {
          return Ok(()), acks, accepted;
        }
        if incoming.SocketError? {
          return Err(Disconnected), acks, accepted;
        }
        if !Validates(incoming, nonce, dataMsgCounter) {
          RefusedHeader(incoming, nonce, dataMsgCounter);
          return Err(InvalidMessage), acks, accepted;
        }
        ValidatesBinary(incoming, nonce, dataMsgCounter);
        dataMsgCounter := dataMsgCounter + 1;
        var data := new byte[|incoming.msg.data|](i requires 0 <= i < |incoming.msg.data| => incoming.msg.data[i]);
        assert data[..] == incoming.msg.data;
        var ok := SaveFile(PathOf(incoming.msg.file), data);
        if !ok {
          return Err(NotSaved), acks, accepted;
        }
        AcceptedSnoc(old(folder), old(peers.ledger), stream, n, nonce, peerId, obfuscationKey);
        accepted := n + 1;
        if !ackSent(ackMsgCounter) {
          return Err(AckNotSent), acks, accepted;
        }
        acks := acks + [Ack(Header(ackMsgCounter, nonce), dataMsgCounter - 1)];
        ackMsgCounter := ackMsgCounter + 1;
        n := n + 1;
      }
      return Ok(()), acks, accepted;
    }
  }

  lemma {:induction false} ValidatesBinary(m: Incoming, nonce: TransportSessionNonce, counter: nat)
    requires Validates(m, nonce, counter)
    ensures m.Binary?
  {
  }

  lemma {:induction false} RefusedHeader(m: Incoming, nonce: TransportSessionNonce, counter: nat)
    requires !Validates(m, nonce, counter)
    ensures !(m.Binary? && m.signed && m.header == Header(counter, nonce))
  {
  }

  lemma {:induction false} AcceptedSnoc(folder: Folder, ledger: Ledger, stream: seq<Incoming>, n: nat,
                                        nonce: TransportSessionNonce, peer: ClientId, key: ObfuscationKey)
    requires n < |stream| && Accepted(folder, ledger, stream[..n], nonce, peer, key)
    requires Validates(stream[n], nonce, n + 1)
    requires PathOf(stream[n].msg.file) !in StoredAll(folder, stream[..n], key) &&
             Allowed(CountedAll(ledger, stream[..n], peer), peer)
    ensures Accepted(folder, ledger, stream[..n + 1], nonce, peer, key)
    ensures StoredAll(folder, stream[..n + 1], key) ==
            StoredAll(folder, stream[..n], key)[PathOf(stream[n].msg.file) := Obfuscated(stream[n].msg.data, key)]
    ensures CountedAll(ledger, stream[..n + 1], peer) ==
            Received(CountedAll(ledger, stream[..n], peer), peer, |stream[n].msg.data|)
  {
    hide Obfuscated, PathOf, Allowed;
    var msgs := stream[..n + 1];
    assert msgs[..n] == stream[..n];
    forall k | 0 <= k < |msgs|
      ensures AcceptedAt(folder, ledger, msgs, k, nonce, peer, key)
    {
      assert msgs[..k] == stream[..k];
      if k < n {
        assert AcceptedAt(folder, ledger, stream[..n], k, nonce, peer, key);
        assert stream[..n][..k] == stream[..k] && stream[..n][k] == stream[k];
      }
    }
  }

  /** However a sender's genuine messages are dropped, repeated or mixed with others, the ones accepted are
      its first messages in order. */
  lemma {:induction false} AcceptedAreFirst(folder: Folder, ledger: Ledger, msgs: seq<Incoming>,
                                            nonce: TransportSessionNonce, peer: ClientId, key: ObfuscationKey,
                                            sent: seq<Msg>)
    requires Accepted(folder, ledger, msgs, nonce, peer, key)
    requires forall m :: m in msgs && m.Binary? && m.signed && m.header.sessionNonce == nonce ==>
               1 <= m.header.sequenceNumber <= |sent| && m.msg == sent[m.header.sequenceNumber - 1]
    ensures |msgs| <= |sent| && forall k :: 0 <= k < |msgs| ==> msgs[k].Binary? && msgs[k].msg == sent[k]
  {
    hide PathOf, Allowed, StoredAll, CountedAll;
    forall k | 0 <= k < |msgs|
      ensures k < |sent| && msgs[k].Binary? && msgs[k].msg == sent[k]
    {
      assert AcceptedAt(folder, ledger, msgs, k, nonce, peer, key);
    }
    if msgs != [] {
      var last := |msgs| - 1;
      assert AcceptedAt(folder, ledger, msgs, last, nonce, peer, key);
      assert msgs[last] in msgs;
    }
  }

  // ----- Acknowledgements, at the sender -----

  /** An acknowledgement on the socket, and whether its signature is the peer's. */
  datatype IncomingAck = IncomingAck(signed: bool, ack: Ack)

  /** The numbers that the acknowledgements make known, in order; the others are only logged. */
  function Notified(incoming: seq<IncomingAck>, nonce: TransportSessionNonce, messagesReceived: nat): seq<int> {
    if incoming == [] then []
    else if incoming[0].signed && AckIsValid(incoming[0].ack.header, nonce, messagesReceived) then
      [incoming[0].ack.acknowledged] + Notified(incoming[1..], nonce, messagesReceived + 1)
    else Notified(incoming[1..], nonce, messagesReceived)
  }

  method ProcessAcks(nonce: TransportSessionNonce, incoming: seq<IncomingAck>) returns (notified: seq<int>)
    ensures notified == Notified(incoming, nonce, 0)
  {
    var messagesReceived := 0;
    notified := [];
    var k := 0;
    assert incoming[0..] == incoming;
    while k < |incoming|
      invariant 0 <= k <= |incoming|
      invariant Notified(incoming, nonce, 0) == notified + Notified(incoming[k..], nonce, messagesReceived)
    {
      assert incoming[k..][1..] == incoming[k + 1..];
      if incoming[k].signed && AckIsValid(incoming[k].ack.header, nonce, messagesReceived) {
        Assoc(notified, [incoming[k].ack.acknowledged], Notified(incoming[k + 1..], nonce, messagesReceived + 1));
        notified := notified + [incoming[k].ack.acknowledged];
        messagesReceived := messagesReceived + 1;
      }
      k := k + 1;
    }
    assert incoming[k..] == [];
  }

  /** However the peer's acknowledgements are dropped, repeated or forged, those made known are its first
      ones, in order: the numbers 1, 2, 3 and so on. */
  lemma {:induction false} NotifiedInOrder(incoming: seq<IncomingAck>, nonce: TransportSessionNonce, from: nat, n: nat)
    requires from <= n
    requires forall i :: i in incoming && i.signed && i.ack.header.sessionNonce == nonce ==> i.ack in AcksFor(nonce, n)
    ensures from + |Notified(incoming, nonce, from)| <= n
    ensures forall k :: 0 <= k < |Notified(incoming, nonce, from)| ==>
              Notified(incoming, nonce, from)[k] == from + k + 1
    decreases |incoming|
  {
    if incoming != [] {
      if incoming[0].signed && AckIsValid(incoming[0].ack.header, nonce, from) {
        assert incoming[0].ack in AcksFor(nonce, n);
        NotifiedInOrder(incoming[1..], nonce, from + 1, n);
      } else {
        NotifiedInOrder(incoming[1..], nonce, from, n);
      }
    }
  }

  /** The acknowledgements among these that the peer signed in this session. */
  function SignedOf(incoming: seq<IncomingAck>, nonce: TransportSessionNonce): seq<Ack> {
    if incoming == [] then []
    else
      (if incoming[0].signed && incoming[0].ack.header.sessionNonce == nonce then [incoming[0].ack] else []) +
      SignedOf(incoming[1..], nonce)
  }

  /** When the peer's acknowledgements come in order and none is missing, all of them are made known, whatever else
      arrives between them. */
  lemma {:induction false} AllAreNotified(incoming: seq<IncomingAck>, nonce: TransportSessionNonce, from: nat, n: nat)
    requires from <= n && SignedOf(incoming, nonce) == AcksFor(nonce, n)[from..]
    ensures |Notified(incoming, nonce, from)| == n - from
    ensures forall k :: 0 <= k < n - from ==> Notified(incoming, nonce, from)[k] == from + k + 1
    decreases |incoming|
  {
    if incoming != [] {
      hide Notified, SignedOf, AcksFor;
      NextSigned(incoming, nonce, from, n);
      if incoming[0].signed && incoming[0].ack.header.sessionNonce == nonce {
        AllAreNotified(incoming[1..], nonce, from + 1, n);
      } else {
        AllAreNotified(incoming[1..], nonce, from, n);
      }
    }
  }

  lemma {:induction false} NextSigned(incoming: seq<IncomingAck>, nonce: TransportSessionNonce, from: nat, n: nat)
    requires incoming != [] && from <= n && SignedOf(incoming, nonce) == AcksFor(nonce, n)[from..]
    ensures if incoming[0].signed && incoming[0].ack.header.sessionNonce == nonce then
              from < n && SignedOf(incoming[1..], nonce) == AcksFor(nonce, n)[from + 1..] &&
              Notified(incoming, nonce, from) == [from + 1] + Notified(incoming[1..], nonce, from + 1)
            else
              SignedOf(incoming[1..], nonce) == AcksFor(nonce, n)[from..] &&
              Notified(incoming, nonce, from) == Notified(incoming[1..], nonce, from)
  {
    var first, others := incoming[0], SignedOf(incoming[1..], nonce);
    if first.signed && first.ack.header.sessionNonce == nonce {
      assert ([first.ack] + others)[0] == first.ack && ([first.ack] + others)[1..] == others;
    } else {
      assert [] + others == others;
    }
  }
}
