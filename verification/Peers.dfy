/** The ledger of bytes negotiated with, sent to and received from each peer. */
module Peers {
  import opened Wrappers
  import opened ByteStrings
  import opened Primitives

  const PEER_STORAGE_USAGE_SPREAD: int := 16_777_216 // 16 MiB

  datatype PeerInfo = PeerInfo(bytesTransmitted: int, bytesReceived: int, bytesNegotiated: int)

  type Ledger = map<ClientId, PeerInfo>

  function Abs(x: int): int {
    if x < 0 then -x else x
  }

  /** The receiver's test before each file: up to 16 MiB over what was negotiated. */
  predicate IsPeerAllowedToSendData(peer: PeerInfo): (allowed: bool)
    ensures allowed <==> peer.bytesReceived - peer.bytesNegotiated < PEER_STORAGE_USAGE_SPREAD
  {
    var free := peer.bytesNegotiated - peer.bytesReceived;
    if free >= 1 then true else Abs(free) < PEER_STORAGE_USAGE_SPREAD
  }

  function FreeStorage(peer: PeerInfo): int {
    peer.bytesNegotiated - peer.bytesTransmitted
  }

  /** The sender's test when it looks for peers, against its own count. */
  predicate HasStorage(peer: PeerInfo): (has: bool)
    ensures has <==> peer.bytesTransmitted - peer.bytesNegotiated < PEER_STORAGE_USAGE_SPREAD
  {
    FreeStorage(peer) > 0 || Abs(FreeStorage(peer)) < PEER_STORAGE_USAGE_SPREAD
  }

  /** When the two ledgers agree on what was negotiated and the sender has counted no more than the
      receiver, the sender never gives up a peer that would still accept; when they also agree on what was
      transferred, the two tests are the same. */
  lemma {:induction false} TestsAgree(sender: PeerInfo, receiver: PeerInfo)
    requires sender.bytesNegotiated == receiver.bytesNegotiated && sender.bytesTransmitted <= receiver.bytesReceived
    ensures IsPeerAllowedToSendData(receiver) ==> HasStorage(sender)
    ensures sender.bytesTransmitted == receiver.bytesReceived ==>
              (HasStorage(sender) <==> IsPeerAllowedToSendData(receiver))
  {
  }

  // ----- Updates -----

  function Negotiated(ledger: Ledger, peer: ClientId, amount: nat): Ledger {
    if peer in ledger then ledger[peer := ledger[peer].(bytesNegotiated := ledger[peer].bytesNegotiated + amount)]
    else ledger[peer := PeerInfo(0, 0, amount)]
  }

  /** An update of a peer without a row changes nothing. */
  function Transmitted(ledger: Ledger, peer: ClientId, amount: nat): Ledger {
    if peer in ledger then ledger[peer := ledger[peer].(bytesTransmitted := ledger[peer].bytesTransmitted + amount)]
    else ledger
  }

  function Received(ledger: Ledger, peer: ClientId, amount: nat): Ledger {
    if peer in ledger then ledger[peer := ledger[peer].(bytesReceived := ledger[peer].bytesReceived + amount)]
    else ledger
  }

  ghost predicate Descending(ledger: Ledger, peers: seq<ClientId>) {
    (forall p :: p in peers ==> p in ledger) &&
    forall i, j :: 0 <= i < j < |peers| ==> FreeStorage(ledger[peers[i]]) >= FreeStorage(ledger[peers[j]])
  }

  lemma {:induction false} InsertedAt(peers: seq<ClientId>, peer: ClientId, at: nat)
    requires at <= |peers| && NoDuplicates(peers) && peer !in peers
    ensures var r := peers[..at] + [peer] + peers[at..];
            NoDuplicates(r) && forall p :: p in r <==> p == peer || p in peers
  {
    assert peers == peers[..at] + peers[at..];
  }

  class PeerStore {
    var ledger: Ledger

    constructor ()
      ensures ledger == map[]
    {
      ledger := map[];
    }

    method AddOrIncrementPeer(peer: ClientId, negotiated: nat)
      modifies this
      ensures ledger == Negotiated(old(ledger), peer, negotiated)
    {
      if peer in ledger {
        var row := ledger[peer];
        ledger := ledger[peer := row.(bytesNegotiated := row.bytesNegotiated + negotiated)];
      } else {
        ledger := ledger[peer := PeerInfo(0, 0, negotiated)];
      }
    }

    method GetPeerInfo(peer: ClientId) returns (row: Option<PeerInfo>)
      ensures row == if peer in ledger then Some(ledger[peer]) else None
    {
      row := if peer in ledger then Some(ledger[peer]) else None;
    }

    method PeerIncrementReceived(peer: ClientId, amount: nat)
      modifies this
      ensures ledger == Received(old(ledger), peer, amount)
    {
      if peer in ledger {
        ledger := ledger[peer := ledger[peer].(bytesReceived := ledger[peer].bytesReceived + amount)];
      }
    }

    /** The peers that pass the sender's test, each once, those with most free storage first. */
    method FindPeersWithStorage() returns (peers: seq<ClientId>)
      ensures forall p :: p in peers <==> p in ledger && HasStorage(ledger[p])
      ensures NoDuplicates(peers)
      ensures forall i, j :: 0 <= i < j < |peers| ==>
                peers[i] in ledger && peers[j] in ledger &&
                ledger[peers[i]].bytesNegotiated - ledger[peers[i]].bytesTransmitted >=
                ledger[peers[j]].bytesNegotiated - ledger[peers[j]].bytesTransmitted
    {
      assert forall p :: p in ledger ==>
               FreeStorage(ledger[p]) == ledger[p].bytesNegotiated - ledger[p].bytesTransmitted;
      hide HasStorage, FreeStorage;
      peers := [];
      var rows := ledger.Keys;
      while rows != {}
        invariant rows <= ledger.Keys
        invariant forall p :: p in peers <==> p in ledger && p !in rows && HasStorage(ledger[p])
        invariant NoDuplicates(peers) && Descending(ledger, peers)
        decreases |rows|
      {
        var peer :| peer in rows;
        rows := rows - {peer};
        if HasStorage(ledger[peer]) {
          peers := InsertPeer(peers, peer);
        }
      }
    }

    method InsertPeer(peers: seq<ClientId>, peer: ClientId) returns (r: seq<ClientId>)
      requires Descending(ledger, peers) && NoDuplicates(peers) && peer in ledger && peer !in peers
      ensures Descending(ledger, r) && NoDuplicates(r)
      ensures forall p :: p in r <==> p == peer || p in peers
    {
      hide FreeStorage;
      var at := 0;
      while at < |peers| && FreeStorage(ledger[peers[at]]) >= FreeStorage(ledger[peer])
        invariant at <= |peers|
        invariant forall i :: 0 <= i < at ==> FreeStorage(ledger[peers[i]]) >= FreeStorage(ledger[peer])
      {
        at := at + 1;
      }
      r := peers[..at] + [peer] + peers[at..];
      InsertedAt(peers, peer, at);
    }
  }
}
