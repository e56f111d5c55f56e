/** A client sending its backup to peers: all its sessions, its local folder, and each peer's disk and
    ledger, as one transition system. Sessions interleave freely, the network replays, loses and forges
    messages, and any step may be the last of its session. */
module Transfers {
  import opened Wrappers
  import opened ByteStrings
  import opened Primitives
  import opened FileNames
  import opened Obfuscation
  import opened Peers
  import opened Sessions
  import opened Sums

  /** A peer: its obfuscation key, what it stores for the client, and its ledger's row for the client. */
  datatype Peer = Peer(key: ObfuscationKey, disk: map<FileInfo, Bytes>, row: Option<PeerInfo>)

  /** `files` are all packfiles and index files ever written; `local` the packfiles in the local folder. */
  datatype World = World(
    sessions: seq<Session>, peers: map<ClientId, Peer>, files: map<FileInfo, Bytes>, local: set<FileInfo>,
    packed: bool, highestSentIndex: Option<nat>, ledger: Ledger)

  datatype Event =
    // the client
    | Send(i: nat, file: FileInfo) | Listen(i: nat) | Return(i: nat) | Account(i: nat) | Conclude(i: nat) | Fail(i: nat)
    // the network and the peers
    | Open(peer: ClientId, nonce: TransportSessionNonce)
    | DeliverAck(i: nat, j: nat, k: nat)     // the k-th acknowledgement of session j, to session i
    | DeliverMessage(i: nat, j: nat, k: nat) // the k-th message signed in session j, to session i
    | FindPathFree(i: nat) | Permit(i: nat) | Write(i: nat) | Count(i: nat) | Acknowledge(i: nat) | Close(i: nat)
    // matches, and the packer
    | MatchHere(peer: ClientId, size: nat) | MatchThere(peer: ClientId, size: nat)
    | WriteFile(file: FileInfo, data: Bytes) | FinishPacking

  /** A packfile has a fresh id, an index file a number above all before it, and neither is empty. */
  predicate MayWrite(w: World, file: FileInfo, data: Bytes) {
    file !in w.files && data != [] && !w.packed &&
    (file.Index? ==> forall f :: f in w.files && f.Index? ==> f.number < file.number)
  }

  predicate IsPeer(w: World, i: nat) {
    i < |w.sessions| && w.sessions[i].peer in w.peers
  }

  predicate Enabled(w: World, e: Event) {
    match e
    case Send(i, file) =>
      i < |w.sessions| && w.sessions[i].sender.Idle? && file in w.files && (file.Packfile? ==> file in w.local)
    case Listen(i) => i < |w.sessions| && w.sessions[i].sender.Sent?
    case Return(i) => i < |w.sessions| && w.sessions[i].sender.Heard?
    case Account(i) => i < |w.sessions| && w.sessions[i].sender.Returned? && w.sessions[i].signed != []
    case Conclude(i) => i < |w.sessions| && w.sessions[i].sender.Accounted? && w.sessions[i].signed != []
    case Fail(i) => i < |w.sessions|
    case Open(peer, nonce) => peer in w.peers && forall s :: s in w.sessions ==> s.nonce != nonce
    case DeliverAck(i, j, k) => i < |w.sessions| && j < |w.sessions| && k < |w.sessions[j].acks|
    case DeliverMessage(i, j, k) =>
      i < |w.sessions| && w.sessions[i].receiver.Ready? && j < |w.sessions| && k < |w.sessions[j].signed|
    case FindPathFree(i) =>
      IsPeer(w, i) && w.sessions[i].receiver.Validated? &&
      w.sessions[i].receiver.msg.file !in w.peers[w.sessions[i].peer].disk
    case Permit(i) =>
      IsPeer(w, i) && w.sessions[i].receiver.PathFree? && w.peers[w.sessions[i].peer].row.Some? &&
      IsPeerAllowedToSendData(w.peers[w.sessions[i].peer].row.value)
    case Write(i) => IsPeer(w, i) && w.sessions[i].receiver.Permitted?
    case Count(i) => IsPeer(w, i) && w.sessions[i].receiver.Written?
    case Acknowledge(i) => i < |w.sessions| && w.sessions[i].receiver.Counted?
    case Close(i) => i < |w.sessions|
    case MatchHere(_, _) => true
    case MatchThere(peer, _) => peer in w.peers
    case WriteFile(file, data) => MayWrite(w, file, data)
    case FinishPacking => true
  }

  function CountedRow(row: Option<PeerInfo>, amount: nat): Option<PeerInfo> {
    if row.Some? then Some(row.value.(bytesReceived := row.value.bytesReceived + amount)) else None
  }

  function Current(s: Session): Msg
    requires s.signed != []
  {
    s.signed[|s.signed| - 1]
  }

  /** The steps that change a session and nothing else. */
  function SessionAfter(w: World, e: Event): Session
    requires Enabled(w, e)
    requires e.Send? || e.Listen? || e.Return? || e.Account? || e.Conclude? || e.Fail? || e.DeliverAck? ||
             e.DeliverMessage? ||
             e.FindPathFree? || e.Permit? || e.Write? || e.Count? || e.Acknowledge? || e.Close?
  {
    var s := w.sessions[e.i];
    match e
    case Send(i, file) => Sends(s, Msg(file, w.files[file]))
    case Listen(_) => Listens(s)
    case Return(_) => Returns(s)
    case Account(_) => Accounts(s, |Current(s).data|)
    case Conclude(_) => Concludes(s)
    case Fail(_) => Fails(s)
    case DeliverAck(_, j, k) =>
      var other := w.sessions[j];
      if other.peer == s.peer then Hears(s, Header(k, other.nonce), other.acks[k]) else s
    case DeliverMessage(_, j, k) => Receives(s, Header(k + 1, w.sessions[j].nonce), w.sessions[j].signed[k])
    case FindPathFree(_) => FindsPathFree(s)
    case Permit(_) => IsPermitted(s)
    case Write(_) => Writes(s)
    case Count(_) => Counts(s)
    case Acknowledge(_) => Acknowledges(s)
    case Close(_) => Closes(s)
  }

  predicate IsSessionEvent(e: Event) {
    !(e.Open? || e.MatchHere? || e.MatchThere? || e.WriteFile? || e.FinishPacking?)
  }

  function SessionsAfter(w: World, e: Event): seq<Session>
    requires Enabled(w, e)
  {
    if IsSessionEvent(e) then w.sessions[e.i := SessionAfter(w, e)]
    else if e.Open? then w.sessions + [NewSession(e.peer, e.nonce)]
    else w.sessions
  }

  function MatchedRow(row: Option<PeerInfo>, size: nat): PeerInfo {
    if row.Some? then row.value.(bytesNegotiated := row.value.bytesNegotiated + size) else PeerInfo(0, 0, size)
  }

  /** The peer that a step changes, afterwards. */
  function PeerAfter(w: World, e: Event): Peer
    requires Enabled(w, e) && (e.Write? || e.Count? || e.MatchThere?)
  {
    match e
    case Write(i) =>
      var s, peer := w.sessions[i], w.peers[w.sessions[i].peer];
      peer.(disk := peer.disk[s.receiver.msg.file := Obfuscated(s.receiver.msg.data, peer.key)])
    case Count(i) =>
      var s, peer := w.sessions[i], w.peers[w.sessions[i].peer];
      peer.(row := CountedRow(peer.row, |s.receiver.msg.data|))
    case MatchThere(p, size) => w.peers[p].(row := Some(MatchedRow(w.peers[p].row, size)))
  }

  function PeersAfter(w: World, e: Event): map<ClientId, Peer>
    requires Enabled(w, e)
  {
    if e.Write? || e.Count? then w.peers[w.sessions[e.i].peer := PeerAfter(w, e)]
    else if e.MatchThere? then w.peers[e.peer := PeerAfter(w, e)]
    else w.peers
  }

  /** A packfile whose receipt is confirmed is deleted. */
  function LocalAfter(w: World, e: Event): set<FileInfo>
    requires Enabled(w, e)
  {
    if e.WriteFile? && e.file.Packfile? then w.local + {e.file}
    else if e.Conclude? && Current(w.sessions[e.i]).file.Packfile? then w.local - {Current(w.sessions[e.i]).file}
    else w.local
  }

  function HighestSentAfter(w: World, e: Event): Option<nat>
    requires Enabled(w, e)
  {
    if e.Conclude? && Current(w.sessions[e.i]).file.Index? then Some(Current(w.sessions[e.i]).file.number)
    else w.highestSentIndex
  }

  function LedgerAfter(w: World, e: Event): Ledger
    requires Enabled(w, e)
  {
    if e.Account? then Transmitted(w.ledger, w.sessions[e.i].peer, |Current(w.sessions[e.i]).data|)
    else if e.MatchHere? then Negotiated(w.ledger, e.peer, e.size)
    else w.ledger
  }

  function FilesAfter(w: World, e: Event): map<FileInfo, Bytes> {
    if e.WriteFile? then w.files[e.file := e.data] else w.files
  }

  function Next(w: World, e: Event): World
    requires Enabled(w, e)
  {
    World(SessionsAfter(w, e), PeersAfter(w, e), FilesAfter(w, e), LocalAfter(w, e),
          w.packed || e.FinishPacking?, HighestSentAfter(w, e), LedgerAfter(w, e))
  }

  // ----- What every run keeps -----

  ghost predicate AllOk(sessions: seq<Session>, peers: set<ClientId>) {
    (forall i :: 0 <= i < |sessions| ==> SessionOk(sessions[i]) && sessions[i].peer in peers) &&
    forall i, j :: 0 <= i < j < |sessions| ==> sessions[i].nonce != sessions[j].nonce
  }

  ghost predicate SessionsOk(w: World) {
    AllOk(w.sessions, w.peers.Keys)
  }

  predicate Genuine(files: map<FileInfo, Bytes>, m: Msg) {
    m.file in files && files[m.file] == m.data
  }

  /** What is signed was written, and what a session saved is on its peer's disk. */
  ghost predicate SessionFiles(s: Session, files: map<FileInfo, Bytes>, disk: map<FileInfo, Bytes>) {
    (forall m :: m in s.signed ==> Genuine(files, m)) && forall m :: m in s.saved ==> m.file in disk
  }

  ghost predicate FilesOk(w: World) {
    forall i :: 0 <= i < |w.sessions| && w.sessions[i].peer in w.peers ==>
      SessionFiles(w.sessions[i], w.files, w.peers[w.sessions[i].peer].disk)
  }

  /** A peer stores nothing but the client's files, obfuscated. */
  ghost predicate Stores(files: map<FileInfo, Bytes>, peer: Peer) {
    forall f :: f in peer.disk ==> f in files && peer.disk[f] == Obfuscated(files[f], peer.key)
  }

  ghost predicate DisksOk(w: World) {
    forall p :: p in w.peers ==> Stores(w.files, w.peers[p])
  }

  ghost predicate Held(w: World, file: FileInfo) {
    exists p :: p in w.peers && file in w.peers[p].disk
  }

  /** Every packfile ever written is in the local folder or stored by a peer. */
  ghost predicate NothingLost(w: World) {
    w.local <= w.files.Keys && (forall f :: f in w.local ==> f.Packfile?) &&
    forall f :: f in w.files && f.Packfile? ==> f in w.local || Held(w, f)
  }

  ghost predicate IndexSent(w: World) {
    w.highestSentIndex.Some? ==> w.highestSentIndex.value < U32_LIMIT && Index(w.highestSentIndex.value) in w.files &&
                                 Held(w, Index(w.highestSentIndex.value))
  }

  ghost predicate WorldOk(w: World) {
    SessionsOk(w) && FilesOk(w) && DisksOk(w) && NothingLost(w) && IndexSent(w)
  }

  lemma {:induction false} NonceNames(w: World, i: nat, j: nat)
    requires SessionsOk(w) && i < |w.sessions| && j < |w.sessions| && w.sessions[i].nonce == w.sessions[j].nonce
    ensures i == j
  {
  }

  lemma {:induction false} FreePathIsNew(w: World, i: nat)
    requires FilesOk(w) && IsPeer(w, i) && w.sessions[i].receiver.Validated?
    requires w.sessions[i].receiver.msg.file !in w.peers[w.sessions[i].peer].disk
    ensures !FileSaved(w.sessions[i].saved, w.sessions[i].receiver.msg.file)
  {
  }

  lemma {:induction false} SessionStays(w: World, e: Event)
    requires Enabled(w, e) && IsSessionEvent(e) && SessionsOk(w) && FilesOk(w)
    ensures SessionOk(SessionAfter(w, e))
  {
    hide SessionOk, Sends, Hears, Accounts, Fails, Receives, Writes, Counts, Acknowledges, Closes, FindsPathFree,
         IsPermitted, Listens, Returns, Concludes, FilesOk;
    var s := w.sessions[e.i];
    match e
    case Send(_, file) => SendKeeps(s, Msg(file, w.files[file]));
    case Account(_) => AccountKeeps(s);
    case Fail(_) => FailKeeps(s);
    case DeliverAck(i, j, k) =>
      if w.sessions[j].nonce == s.nonce { NonceNames(w, i, j); }
      if w.sessions[j].peer == s.peer { HearKeeps(s, Header(k, w.sessions[j].nonce), w.sessions[j].acks[k]); }
    case DeliverMessage(i, j, k) =>
      if w.sessions[j].nonce == s.nonce { NonceNames(w, i, j); }
      ReceiveKeeps(s, Header(k + 1, w.sessions[j].nonce), w.sessions[j].signed[k]);
    case FindPathFree(i) => FreePathIsNew(w, i); ReceiverStepsKeep(s);
    case Write(_) => WriteKeeps(s);
    case Count(_) => CountKeeps(s);
    case Acknowledge(_) => AcknowledgeKeeps(s);
    case Permit(_) => ReceiverStepsKeep(s);
    case Close(_) => ReceiverStepsKeep(s);
    case Listen(_) => SenderStepsKeep(s);
    case Return(_) => SenderStepsKeep(s);
    case Conclude(_) => SenderStepsKeep(s);
  }

  /** A step of a session changes only that session, and of it neither peer nor nonce. */
  lemma {:induction false} SessionFrame(w: World, e: Event)
    requires Enabled(w, e) && IsSessionEvent(e)
    ensures var s, s' := w.sessions[e.i], SessionAfter(w, e);
            Next(w, e).sessions == w.sessions[e.i := s'] && s'.peer == s.peer && s'.nonce == s.nonce &&
            s'.signed == (if e.Send? then s.signed + [Msg(e.file, w.files[e.file])] else s.signed) &&
            s'.saved == (if e.Write? then s.saved + [s.receiver.msg] else s.saved)
  {
  }

  /** Files are only added, to the client's and to the peers' disks. */
  lemma {:induction false} OnlyGrows(w: World, e: Event)
    requires Enabled(w, e)
    ensures w.files.Keys <= Next(w, e).files.Keys && forall f :: f in w.files ==> Next(w, e).files[f] == w.files[f]
    ensures Next(w, e).peers.Keys == w.peers.Keys
    ensures forall p :: p in w.peers ==>
              Next(w, e).peers[p].key == w.peers[p].key && w.peers[p].disk.Keys <= Next(w, e).peers[p].disk.Keys
    ensures !e.Write? ==> forall p :: p in w.peers ==> Next(w, e).peers[p].disk == w.peers[p].disk
  {
    hide SessionsAfter, LocalAfter, HighestSentAfter, LedgerAfter, IsPeerAllowedToSendData, Obfuscated;
  }

  lemma {:induction false} SessionReplaced(sessions: seq<Session>, peers: set<ClientId>, i: nat, s: Session)
    requires AllOk(sessions, peers) && i < |sessions|
    requires SessionOk(s) && s.peer == sessions[i].peer && s.nonce == sessions[i].nonce
    ensures AllOk(sessions[i := s], peers)
  {
    hide SessionOk;
  }

  lemma {:induction false} SessionAdded(sessions: seq<Session>, peers: set<ClientId>, s: Session)
    requires AllOk(sessions, peers) && SessionOk(s) && s.peer in peers
    requires forall t :: t in sessions ==> t.nonce != s.nonce
    ensures AllOk(sessions + [s], peers)
  {
    hide SessionOk;
    assert forall i :: 0 <= i < |sessions| ==> sessions[i] in sessions;
  }

  lemma {:induction false} SessionsStay(w: World, e: Event)
    requires Enabled(w, e) && SessionsOk(w) && FilesOk(w)
    ensures SessionsOk(Next(w, e))
  {
    hide SessionAfter, Next, SessionOk, AllOk, Enabled, FilesOk;
    OnlyGrows(w, e);
    if IsSessionEvent(e) {
      SessionStays(w, e);
      SessionFrame(w, e);
      SessionIndex(w, e);
      SessionReplaced(w.sessions, w.peers.Keys, e.i, SessionAfter(w, e));
    } else {
      OtherEvents(w, e);
      if e.Open? {
        NewSessionOk(e.peer, e.nonce);
        OpenIsNew(w, e);
        SessionAdded(w.sessions, w.peers.Keys, NewSession(e.peer, e.nonce));
      }
    }
  }

  lemma {:induction false} SessionIndex(w: World, e: Event)
    requires Enabled(w, e)
    ensures IsSessionEvent(e) ==> e.i < |w.sessions|
  {
  }

  lemma {:induction false} OpenIsNew(w: World, e: Event)
    requires e.Open? && Enabled(w, e)
    ensures e.peer in w.peers && forall s :: s in w.sessions ==> s.nonce != e.nonce
  {
  }

  lemma {:induction false} OtherEvents(w: World, e: Event)
    requires Enabled(w, e) && !IsSessionEvent(e)
    ensures Next(w, e).sessions == if e.Open? then w.sessions + [NewSession(e.peer, e.nonce)] else w.sessions
    ensures !e.WriteFile? ==> Next(w, e).local == w.local && Next(w, e).files == w.files
    ensures Next(w, e).highestSentIndex == w.highestSentIndex
  {
  }

  lemma {:induction false} SessionFilesGrow(s: Session, files: map<FileInfo, Bytes>, disk: map<FileInfo, Bytes>,
                                            files': map<FileInfo, Bytes>, disk': map<FileInfo, Bytes>)
    requires SessionFiles(s, files, disk)
    requires files.Keys <= files'.Keys && (forall f :: f in files ==> files'[f] == files[f]) && disk.Keys <= disk'.Keys
    ensures SessionFiles(s, files', disk')
  {
  }

  lemma {:induction false} FilesStay(w: World, e: Event)
    requires Enabled(w, e) && SessionsOk(w) && FilesOk(w)
    ensures FilesOk(Next(w, e))
  {
    hide SessionFiles, Enabled, Next, AllOk;
    var w' := Next(w, e);
    forall i | 0 <= i < |w'.sessions| && w'.sessions[i].peer in w'.peers
      ensures SessionFiles(w'.sessions[i], w'.files, w'.peers[w'.sessions[i].peer].disk)
    {
      SessionFilesStay(w, e, i);
    }
  }

  lemma {:induction false} OldFilesGrow(w: World, e: Event, i: nat)
    requires Enabled(w, e) && SessionsOk(w) && FilesOk(w) && i < |w.sessions|
    ensures w.sessions[i].peer in w.peers && w.sessions[i].peer in Next(w, e).peers
    ensures SessionFiles(w.sessions[i], Next(w, e).files, Next(w, e).peers[w.sessions[i].peer].disk)
  {
    hide SessionAfter, Next, SessionOk, SessionFiles, Enabled;
    OnlyGrows(w, e);
    var p := w.sessions[i].peer;
    SessionFilesGrow(w.sessions[i], w.files, w.peers[p].disk, Next(w, e).files, Next(w, e).peers[p].disk);
  }

  lemma {:induction false} WhichSession(w: World, e: Event, i: nat)
    requires Enabled(w, e) && i < |Next(w, e).sessions|
    ensures i < |w.sessions| ==> Next(w, e).sessions[i].peer == w.sessions[i].peer
    ensures i >= |w.sessions| ==> e.Open? && Next(w, e).sessions[i] == NewSession(e.peer, e.nonce)
  {
    hide SessionAfter, Next, Enabled;
    SessionIndex(w, e);
    if IsSessionEvent(e) {
      SessionFrame(w, e);
    } else {
      OtherEvents(w, e);
    }
  }

  lemma {:induction false} SessionFilesStay(w: World, e: Event, i: nat)
    requires Enabled(w, e) && SessionsOk(w) && FilesOk(w)
    requires i < |Next(w, e).sessions| && Next(w, e).sessions[i].peer in Next(w, e).peers
    ensures SessionFiles(Next(w, e).sessions[i], Next(w, e).files, Next(w, e).peers[Next(w, e).sessions[i].peer].disk)
  {
    hide Next, SessionOk, SessionFiles, Enabled, FilesOk, AllOk;
    WhichSession(w, e, i);
    if i < |w.sessions| {
      OldFilesGrow(w, e, i);
      ChangedSessionFiles(w, e, i);
    } else {
      NewSessionFiles(e.peer, e.nonce, Next(w, e).files, Next(w, e).peers[e.peer].disk);
    }
  }

  lemma {:induction false} NewSessionFiles(peer: ClientId, nonce: TransportSessionNonce, files: map<FileInfo, Bytes>,
                                           disk: map<FileInfo, Bytes>)
    ensures SessionFiles(NewSession(peer, nonce), files, disk)
  {
  }

  lemma {:induction false} ChangedSessionFiles(w: World, e: Event, i: nat)
    requires Enabled(w, e) && i < |w.sessions| && w.sessions[i].peer in w.peers
    requires w.sessions[i].peer in Next(w, e).peers && i < |Next(w, e).sessions|
    requires SessionFiles(w.sessions[i], Next(w, e).files, Next(w, e).peers[w.sessions[i].peer].disk)
    ensures SessionFiles(Next(w, e).sessions[i], Next(w, e).files, Next(w, e).peers[w.sessions[i].peer].disk)
  {
    hide SessionAfter, SessionOk;
    if IsSessionEvent(e) {
      SessionFrame(w, e);
    }
  }

  lemma {:induction false} DisksStay(w: World, e: Event)
    requires Enabled(w, e) && SessionsOk(w) && FilesOk(w) && DisksOk(w)
    ensures DisksOk(Next(w, e))
  {
    hide SessionAfter, Next, SessionOk, Obfuscated;
    var w' := Next(w, e);
    OnlyGrows(w, e);
    if e.Write? {
      WriteStores(w, e.i);
    }
  }

  lemma {:induction false} WriteStores(w: World, i: nat)
    requires Enabled(w, Write(i)) && SessionsOk(w) && FilesOk(w) && DisksOk(w)
    ensures DisksOk(Next(w, Write(i)))
  {
    hide SessionAfter, Obfuscated, SessionOk;
    var s := w.sessions[i];
    PendingIsGenuine(s, w.files, w.peers[s.peer].disk);
  }

  lemma {:induction false} PendingIsGenuine(s: Session, files: map<FileInfo, Bytes>, disk: map<FileInfo, Bytes>)
    requires SessionOk(s) && s.receiver.Permitted? && SessionFiles(s, files, disk)
    ensures Genuine(files, s.receiver.msg)
  {
    hide Size, FileSaved;
    assert s.receiver.msg in s.signed;
  }

  lemma {:induction false} HeldStays(w: World, e: Event, f: FileInfo)
    requires Enabled(w, e) && Held(w, f)
    ensures Held(Next(w, e), f)
  {
    hide Next;
    OnlyGrows(w, e);
    var p :| p in w.peers && f in w.peers[p].disk;
    assert p in Next(w, e).peers && f in Next(w, e).peers[p].disk;
  }

  /** What the sender is about to delete or mark as sent is on the peer's disk. */
  lemma {:induction false} AccountedIsHeld(w: World, i: nat)
    requires SessionsOk(w) && FilesOk(w) && i < |w.sessions| && w.sessions[i].signed != []
    requires w.sessions[i].sender.Returned? || w.sessions[i].sender.Accounted?
    ensures Held(w, Current(w.sessions[i]).file) && Current(w.sessions[i]).file in w.files
  {
    hide SessionOk;
    var s := w.sessions[i];
    SessionGuarantees(s);
    assert Current(s) in s.saved;
    assert s.peer in w.peers && Current(s).file in w.peers[s.peer].disk;
  }

  lemma {:induction false} NothingIsLost(w: World, e: Event)
    requires Enabled(w, e) && SessionsOk(w) && FilesOk(w) && NothingLost(w)
    ensures NothingLost(Next(w, e))
  {
    hide SessionsOk, FilesOk, Held, SessionAfter;
    var w' := Next(w, e);
    OnlyGrows(w, e);
    if e.Conclude? {
      AccountedIsHeld(w, e.i);
    }
    forall f | f in w'.files && f.Packfile?
      ensures f in w'.local || Held(w', f)
    {
      if Held(w, f) {
        HeldStays(w, e, f);
      }
    }
  }

  lemma {:induction false} IndexStays(w: World, e: Event)
    requires Enabled(w, e) && SessionsOk(w) && FilesOk(w) && IndexSent(w)
    ensures IndexSent(Next(w, e))
  {
    hide SessionsOk, FilesOk, Held, SessionAfter;
    OnlyGrows(w, e);
    if e.Conclude? && Current(w.sessions[e.i]).file.Index? {
      AccountedIsHeld(w, e.i);
      HeldStays(w, e, Current(w.sessions[e.i]).file);
    } else if w.highestSentIndex.Some? {
      HeldStays(w, e, Index(w.highestSentIndex.value));
    }
  }

  lemma {:induction false} EventKeepsWorld(w: World, e: Event)
    requires Enabled(w, e) && WorldOk(w)
    ensures WorldOk(Next(w, e))
  {
    hide SessionsOk, FilesOk, DisksOk, NothingLost, IndexSent, Next, Enabled;
    SessionsStay(w, e);
    FilesStay(w, e);
    DisksStay(w, e);
    NothingIsLost(w, e);
    IndexStays(w, e);
  }

  // ----- Runs -----

  ghost predicate Runs(w: World, events: seq<Event>)
    decreases |events|
  {
    events == [] || (Enabled(w, events[0]) && Runs(Next(w, events[0]), events[1..]))
  }

  ghost function Run(w: World, events: seq<Event>): World
    requires Runs(w, events)
    decreases |events|
  {
    if events == [] then w else Run(Next(w, events[0]), events[1..])
  }

  /** In every run, whatever is delayed, replayed or cut off: every session keeps its guarantees, peers store
      only genuine files, and every packfile ever written is in the local folder or stored by a peer. */
  lemma {:induction false} EveryRunIsSafe(w: World, events: seq<Event>)
    requires Runs(w, events) && WorldOk(w)
    ensures WorldOk(Run(w, events))
    decreases |events|
  {
    hide Next, Enabled, WorldOk;
    if events != [] {
      EventKeepsWorld(w, events[0]);
      EveryRunIsSafe(Next(w, events[0]), events[1..]);
    }
  }

  // ----- The two ledgers -----

  function AccountedTo(p: ClientId): Session -> nat {
    (s: Session) => if s.peer == p then s.accounted else 0
  }

  function CountedBy(p: ClientId): Session -> nat {
    (s: Session) => if s.peer == p then s.counted else 0
  }

  /** Bytes of a file that passed the quota check and is not counted yet. */
  function Underway(p: ClientId): Session -> nat {
    (s: Session) => if s.peer == p && (s.receiver.Permitted? || s.receiver.Written?) then |s.receiver.msg.data| else 0
  }

  function OpenTo(p: ClientId): Session -> nat {
    (s: Session) => if s.peer == p && !s.receiver.Closed? then 1 else 0
  }

  /** The client has counted at most what its sessions accounted for, the peer exactly what they counted;
      a peer that has counted or permitted anything knows the client. */
  ghost predicate LedgersOk(w: World, p: ClientId)
    requires p in w.peers
  {
    (p in w.ledger ==> w.ledger[p].bytesTransmitted <= Sum(w.sessions, AccountedTo(p))) &&
    (if w.peers[p].row.Some? then w.peers[p].row.value.bytesReceived == Sum(w.sessions, CountedBy(p))
     else Sum(w.sessions, CountedBy(p)) == 0 && Sum(w.sessions, Underway(p)) == 0)
  }

  ghost predicate WithinQuota(w: World, p: ClientId, streams: nat)
    requires p in w.peers
  {
    w.peers[p].row.Some? ==>
      w.peers[p].row.value.bytesReceived + Sum(w.sessions, Underway(p)) <
      w.peers[p].row.value.bytesNegotiated + PEER_STORAGE_USAGE_SPREAD + streams * MAX_ENCAPSULATED_BACKUP_CHUNK_SIZE
  }

  /** Never more than `streams` streams to this peer are open at once. */
  ghost predicate BoundedRun(w: World, events: seq<Event>, p: ClientId, streams: nat)
    requires Runs(w, events)
    decreases |events|
  {
    Sum(w.sessions, OpenTo(p)) <= streams && (events != [] ==> BoundedRun(Next(w, events[0]), events[1..], p, streams))
  }

  lemma {:induction false} SumOfParts<T>(s: seq<T>, f: T -> nat, g: T -> nat)
    requires forall x :: x in s ==> f(x) <= g(x)
    ensures Sum(s, f) <= Sum(s, g)
  {
    if s != [] {
      SumOfParts(s[1..], f, g);
    }
  }

  lemma {:induction false} UnderwayIsBounded(sessions: seq<Session>, p: ClientId)
    requires forall s :: s in sessions ==> SessionOk(s)
    ensures Sum(sessions, Underway(p)) <= MAX_ENCAPSULATED_BACKUP_CHUNK_SIZE * Sum(sessions, OpenTo(p))
  {
    if sessions != [] {
      assert sessions[0] in sessions;
      UnderwayIsBounded(sessions[1..], p);
    }
  }

  /** What a step of a session does to its three counts. */
  lemma {:induction false} CountsAfter(w: World, e: Event, p: ClientId)
    requires Enabled(w, e) && IsSessionEvent(e)
    ensures var s, s' := w.sessions[e.i], SessionAfter(w, e);
            AccountedTo(p)(s') == AccountedTo(p)(s) + (if e.Account? && s.peer == p then |Current(s).data| else 0) &&
            CountedBy(p)(s') == CountedBy(p)(s) + (if e.Count? && s.peer == p then |s.receiver.msg.data| else 0) &&
            (if e.Permit? && s.peer == p then Underway(p)(s) == 0
             else if e.Count? && s.peer == p then Underway(p)(s) == |s.receiver.msg.data| && Underway(p)(s') == 0
             else Underway(p)(s') <= Underway(p)(s))
  {
  }

  lemma {:induction false} RowsAfter(w: World, e: Event, p: ClientId)
    requires Enabled(w, e) && p in w.peers
    ensures p in Next(w, e).peers
    ensures Next(w, e).peers[p].row ==
            (if e.Count? && w.sessions[e.i].peer == p then
               CountedRow(w.peers[p].row, |w.sessions[e.i].receiver.msg.data|)
             else if e.MatchThere? && e.peer == p then Some(MatchedRow(w.peers[p].row, e.size))
             else w.peers[p].row)
    ensures e.Permit? && w.sessions[e.i].peer == p ==>
              w.peers[p].row.Some? &&
              w.peers[p].row.value.bytesReceived < w.peers[p].row.value.bytesNegotiated + PEER_STORAGE_USAGE_SPREAD
  {
    hide SessionAfter, Obfuscated;
  }

  lemma {:induction false} TransmittedAfter(w: World, e: Event, p: ClientId)
    requires Enabled(w, e) && p in Next(w, e).ledger
    ensures e.Account? && w.sessions[e.i].peer == p ==>
              p in w.ledger &&
              Next(w, e).ledger[p].bytesTransmitted == w.ledger[p].bytesTransmitted + |Current(w.sessions[e.i]).data|
    ensures !(e.Account? && w.sessions[e.i].peer == p) ==>
              Next(w, e).ledger[p].bytesTransmitted == if p in w.ledger then w.ledger[p].bytesTransmitted else 0
  {
    hide SessionAfter, Obfuscated;
  }

  /** What a step does to the sums over all sessions. */
  lemma {:induction false} SumsAfter(w: World, e: Event, p: ClientId)
    requires Enabled(w, e)
    ensures var w' := Next(w, e);
            Sum(w'.sessions, AccountedTo(p)) == Sum(w.sessions, AccountedTo(p)) +
              (if e.Account? && w.sessions[e.i].peer == p then |Current(w.sessions[e.i]).data| else 0) &&
            Sum(w'.sessions, CountedBy(p)) == Sum(w.sessions, CountedBy(p)) +
              (if e.Count? && w.sessions[e.i].peer == p then |w.sessions[e.i].receiver.msg.data| else 0) &&
            (e.Count? && w.sessions[e.i].peer == p ==>
               Sum(w'.sessions, Underway(p)) + |w.sessions[e.i].receiver.msg.data| == Sum(w.sessions, Underway(p))) &&
            (!(e.Permit? && w.sessions[e.i].peer == p) ==>
             Sum(w'.sessions, Underway(p)) <= Sum(w.sessions, Underway(p)))
  {
    hide SessionAfter, Next, Enabled, Sum, Underway, CountedBy, AccountedTo;
    SessionIndex(w, e);
    if IsSessionEvent(e) {
      SessionFrame(w, e);
      CountsAfter(w, e, p);
      SumUpdate(w.sessions, e.i, SessionAfter(w, e), AccountedTo(p));
      SumUpdate(w.sessions, e.i, SessionAfter(w, e), CountedBy(p));
      SumUpdate(w.sessions, e.i, SessionAfter(w, e), Underway(p));
    } else {
      OtherEvents(w, e);
      if e.Open? {
        NewSessionCounts(e.peer, e.nonce, p);
        SumSnoc(w.sessions, NewSession(e.peer, e.nonce), AccountedTo(p));
        SumSnoc(w.sessions, NewSession(e.peer, e.nonce), CountedBy(p));
        SumSnoc(w.sessions, NewSession(e.peer, e.nonce), Underway(p));
      }
    }
  }

  lemma {:induction false} NewSessionCounts(peer: ClientId, nonce: TransportSessionNonce, p: ClientId)
    ensures var s := NewSession(peer, nonce); AccountedTo(p)(s) == CountedBy(p)(s) == Underway(p)(s) == 0
  {
  }

  lemma {:induction false} EventKeepsLedgers(w: World, e: Event, p: ClientId)
    requires Enabled(w, e) && p in w.peers && LedgersOk(w, p)
    ensures p in Next(w, e).peers && LedgersOk(Next(w, e), p)
  {
    hide Next, Enabled, Sum, Underway, CountedBy, AccountedTo;
    SumsAfter(w, e, p);
    RowsAfter(w, e, p);
    if p in Next(w, e).ledger {
      TransmittedAfter(w, e, p);
    }
  }

  lemma {:induction false} EventKeepsQuota(w: World, e: Event, p: ClientId, streams: nat)
    requires Enabled(w, e) && WorldOk(w) && p in w.peers && LedgersOk(w, p) && WithinQuota(w, p, streams)
    requires Sum(Next(w, e).sessions, OpenTo(p)) <= streams
    ensures p in Next(w, e).peers && WithinQuota(Next(w, e), p, streams)
  {
    hide Next, Enabled, Sum, Underway, CountedBy, AccountedTo, OpenTo, SessionOk, FilesOk, DisksOk, NothingLost,
         IndexSent;
    SumsAfter(w, e, p);
    RowsAfter(w, e, p);
    SessionIndex(w, e);
    if e.Permit? && w.sessions[e.i].peer == p {
      SessionsStay(w, e);
      UnderwayIsBounded(Next(w, e).sessions, p);
    }
  }

  /** In every run the client has counted no more bytes than the peer, and with at most so many streams open
      at once the peer stays below what was negotiated, plus 16 MiB, plus 8 MiB for each stream. */
  lemma {:induction false} EveryRunWithinQuota(w: World, events: seq<Event>, p: ClientId, streams: nat)
    requires Runs(w, events) && WorldOk(w) && p in w.peers && LedgersOk(w, p) && WithinQuota(w, p, streams)
    requires BoundedRun(w, events, p, streams)
    ensures WorldOk(Run(w, events)) && p in Run(w, events).peers
    ensures LedgersOk(Run(w, events), p) && WithinQuota(Run(w, events), p, streams)
    decreases |events|
  {
    hide Next, Enabled, WorldOk, LedgersOk, WithinQuota, Sum;
    if events != [] {
      EventKeepsWorld(w, events[0]);
      EventKeepsLedgers(w, events[0], p);
      NextIsBounded(w, events, p, streams);
      EventKeepsQuota(w, events[0], p, streams);
      EveryRunWithinQuota(Next(w, events[0]), events[1..], p, streams);
    }
  }

  lemma {:induction false} NextIsBounded(w: World, events: seq<Event>, p: ClientId, streams: nat)
    requires Runs(w, events) && BoundedRun(w, events, p, streams) && events != []
    ensures Sum(Next(w, events[0]).sessions, OpenTo(p)) <= streams
  {
    hide Next, Enabled, Sum;
  }

  /** What the two ledgers then say of each other and of the quota. */
  lemma {:induction false} LedgersAgree(w: World, p: ClientId, streams: nat)
    requires WorldOk(w) && p in w.peers && LedgersOk(w, p) && WithinQuota(w, p, streams)
    requires p in w.ledger && w.peers[p].row.Some?
    ensures w.ledger[p].bytesTransmitted <= w.peers[p].row.value.bytesReceived
    ensures w.peers[p].row.value.bytesReceived <
            w.peers[p].row.value.bytesNegotiated + PEER_STORAGE_USAGE_SPREAD +
            streams * MAX_ENCAPSULATED_BACKUP_CHUNK_SIZE
  {
    hide SessionOk, FilesOk, DisksOk, NothingLost, IndexSent, Sum;
    forall s | s in w.sessions
      ensures AccountedTo(p)(s) <= CountedBy(p)(s)
    {
      SessionGuarantees(s);
    }
    SumOfParts(w.sessions, AccountedTo(p), CountedBy(p));
  }

  /** Before anything happens: peers that know nothing of the client yet. */
  function Unused(keys: map<ClientId, ObfuscationKey>): World {
    World([], map p | p in keys :: Peer(keys[p], map[], None), map[], {}, false, None, map[])
  }

  lemma {:induction false} UnusedIsOk(keys: map<ClientId, ObfuscationKey>, p: ClientId, streams: nat)
    requires p in keys
    ensures WorldOk(Unused(keys)) && LedgersOk(Unused(keys), p) && WithinQuota(Unused(keys), p, streams)
  {
  }
}
