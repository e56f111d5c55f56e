/** One transport session: the two ends' counters, everything signed on either side, and what each end
    does. The network may deliver any signed message any number of times, in any order or never. */
module Sessions {
  import opened ByteStrings
  import opened Primitives
  import opened FileNames

  const MAX_ENCAPSULATED_BACKUP_CHUNK_SIZE: nat := 8_388_608 // 8 MiB

  type TransportSessionNonce = Bytes

  datatype Msg = Msg(file: FileInfo, data: Bytes)

  /** The replay protection header. */
  datatype Header = Header(sequenceNumber: nat, sessionNonce: TransportSessionNonce)

  /** Where send_data and its caller are: after Sent the acknowledgement is not yet listened for. */
  datatype SenderPhase = Idle | Sent | Listening | Heard | Returned | Accounted | Failed

  /** Where handle_stream is: a message is validated, its path found free, the peer's quota checked, the file
      written, the bytes counted, and the acknowledgement sent. */
  datatype ReceiverPhase =
    | Ready | Validated(msg: Msg) | PathFree(msg: Msg) | Permitted(msg: Msg) | Written(msg: Msg) | Counted | Closed

  /** `signed` are the data messages signed so far, the one with sequence number n at n - 1; `acks` the
      acknowledgements, each at its own sequence number; `saved` the files written. */
  datatype Session = Session(
    peer: ClientId, nonce: TransportSessionNonce,
    msgCounter: nat, messagesReceived: nat, sender: SenderPhase, signed: seq<Msg>, accounted: nat,
    dataMsgCounter: nat, receiver: ReceiverPhase, acks: seq<int>, saved: seq<Msg>, counted: nat)

  function NewSession(peer: ClientId, nonce: TransportSessionNonce): Session {
    Session(peer, nonce, 1, 0, Idle, [], 0, 1, Ready, [], [], 0)
  }

  // ----- The sender -----

  function Sends(s: Session, msg: Msg): Session {
    s.(signed := s.signed + [msg], sender := Sent)
  }

  function Listens(s: Session): Session {
    s.(sender := Listening)
  }

  predicate AckIsValid(header: Header, nonce: TransportSessionNonce, messagesReceived: nat) {
    header.sessionNonce == nonce && header.sequenceNumber == messagesReceived
  }

  /** An acknowledgement with a wrong header is only logged; one that nobody listens for is lost. */
  function Hears(s: Session, header: Header, acknowledged: int): Session {
    if AckIsValid(header, s.nonce, s.messagesReceived) then
      s.(messagesReceived := s.messagesReceived + 1,
         sender := if s.sender == Listening && acknowledged == s.msgCounter then Heard else s.sender)
    else s
  }

  function Returns(s: Session): Session {
    s.(msgCounter := s.msgCounter + 1, sender := Returned)
  }

  function Accounts(s: Session, amount: nat): Session {
    s.(accounted := s.accounted + amount, sender := Accounted)
  }

  function Concludes(s: Session): Session {
    s.(sender := Idle)
  }

  /** A timeout, a broken connection or a failing database: the session is given up for good. */
  function Fails(s: Session): Session {
    s.(sender := Failed)
  }

  // ----- The receiver -----

  predicate MessageIsValid(header: Header, nonce: TransportSessionNonce, msgCounter: nat) {
    header.sessionNonce == nonce && header.sequenceNumber == msgCounter
  }

  /** A message with a wrong header, or one too large for the socket, ends the session. */
  function Receives(s: Session, header: Header, msg: Msg): Session {
    if MessageIsValid(header, s.nonce, s.dataMsgCounter) && |msg.data| <= MAX_ENCAPSULATED_BACKUP_CHUNK_SIZE then
      s.(dataMsgCounter := s.dataMsgCounter + 1, receiver := Validated(msg))
    else s.(receiver := Closed)
  }

  function FindsPathFree(s: Session): Session
    requires s.receiver.Validated?
  {
    s.(receiver := PathFree(s.receiver.msg))
  }

  function IsPermitted(s: Session): Session
    requires s.receiver.PathFree?
  {
    s.(receiver := Permitted(s.receiver.msg))
  }

  function Writes(s: Session): Session
    requires s.receiver.Permitted?
  {
    s.(receiver := Written(s.receiver.msg), saved := s.saved + [s.receiver.msg])
  }

  function Counts(s: Session): Session
    requires s.receiver.Written?
  {
    s.(receiver := Counted, counted := s.counted + |s.receiver.msg.data|)
  }

  function Acknowledges(s: Session): Session {
    s.(receiver := Ready, acks := s.acks + [s.dataMsgCounter - 1])
  }

  function Closes(s: Session): Session {
    s.(receiver := Closed)
  }

  // ----- What every session keeps -----

  function Size(msgs: seq<Msg>): nat {
    if msgs == [] then 0 else Size(msgs[..|msgs| - 1]) + |msgs[|msgs| - 1].data|
  }

  ghost predicate FileSaved(saved: seq<Msg>, file: FileInfo) {
    exists m :: m in saved && m.file == file
  }

  ghost predicate SenderOk(s: Session) {
    1 <= s.msgCounter <= |s.acks| + 1 && s.messagesReceived <= |s.acks| &&
    (match s.sender
     case Sent => |s.signed| == s.msgCounter
     case Listening => |s.signed| == s.msgCounter
     case Heard => |s.signed| == s.msgCounter && s.msgCounter <= |s.acks|
     case Failed => s.msgCounter - 1 <= |s.signed| <= s.msgCounter
     case _ => |s.signed| == s.msgCounter - 1) &&
    (s.sender.Returned? ==> s.signed != []) &&
    (s.sender.Accounted? ==> s.signed != []) &&
    s.accounted <= Size(s.signed[..s.msgCounter - 1 - (if s.sender.Returned? then 1 else 0)])
  }

  ghost predicate Pending(s: Session, msg: Msg) {
    s.dataMsgCounter == |s.saved| + 2 && |s.acks| == |s.saved| && s.counted == Size(s.saved) &&
    |s.saved| < |s.signed| && msg == s.signed[|s.saved|] && |msg.data| <= MAX_ENCAPSULATED_BACKUP_CHUNK_SIZE
  }

  ghost predicate ReceiverOk(s: Session) {
    |s.saved| <= |s.signed| && s.saved == s.signed[..|s.saved|] &&
    |s.acks| <= |s.saved| && (forall k :: 0 <= k < |s.acks| ==> s.acks[k] == k + 1) &&
    s.counted >= Size(s.saved[..|s.acks|]) &&
    (forall i, j :: 0 <= i < j < |s.saved| ==> s.saved[i].file != s.saved[j].file) &&
    (match s.receiver
     case Ready => s.dataMsgCounter == |s.saved| + 1 && |s.acks| == |s.saved| && s.counted == Size(s.saved)
     case Validated(m) => Pending(s, m)
     case PathFree(m) => Pending(s, m) && !FileSaved(s.saved, m.file)
     case Permitted(m) => Pending(s, m) && !FileSaved(s.saved, m.file)
     case Written(m) => s.saved != [] && s.saved[|s.saved| - 1] == m &&
     |m.data| <= MAX_ENCAPSULATED_BACKUP_CHUNK_SIZE &&
                        s.dataMsgCounter == |s.saved| + 1 && |s.acks| == |s.saved| - 1 &&
                        s.counted == Size(s.saved[..|s.saved| - 1])
     case Counted => s.saved != [] && s.dataMsgCounter == |s.saved| + 1 && |s.acks| == |s.saved| - 1 &&
     s.counted == Size(s.saved)
     case Closed => true)
  }

  ghost predicate SessionOk(s: Session) {
    SenderOk(s) && ReceiverOk(s)
  }

  lemma {:induction false} SizeSnoc(msgs: seq<Msg>, m: Msg)
    ensures Size(msgs + [m]) == Size(msgs) + |m.data|
  {
    assert (msgs + [m])[..|msgs|] == msgs;
  }

  lemma {:induction false} SizePrefix(msgs: seq<Msg>, n: nat)
    requires n <= |msgs|
    ensures Size(msgs[..n]) <= Size(msgs)
  {
    if n < |msgs| {
      SizePrefix(msgs[..|msgs| - 1], n);
      assert msgs[..|msgs| - 1][..n] == msgs[..n];
    } else {
      assert msgs[..n] == msgs;
    }
  }

  lemma {:induction false} SendKeeps(s: Session, msg: Msg)
    requires SessionOk(s) && s.sender == Idle
    ensures SessionOk(Sends(s, msg))
  {
    hide Size, FileSaved;
    var s' := Sends(s, msg);
    assert s'.signed[..|s.saved|] == s.signed[..|s.saved|];
    assert s'.signed[..s.msgCounter - 1] == s.signed[..s.msgCounter - 1];
  }

  lemma {:induction false} HearKeeps(s: Session, header: Header, acknowledged: int)
    requires SessionOk(s)
    requires AckIsValid(header, s.nonce, s.messagesReceived) ==>
               header.sequenceNumber < |s.acks| && acknowledged == s.acks[header.sequenceNumber]
    ensures SessionOk(Hears(s, header, acknowledged))
  {
    hide Size, FileSaved;
  }

  lemma {:induction false} AccountKeeps(s: Session)
    requires SessionOk(s) && s.sender == Returned
    ensures s.signed != [] && SessionOk(Accounts(s, |s.signed[|s.signed| - 1].data|))
  {
    hide Size, FileSaved;
    var n := s.msgCounter - 1;
    assert s.signed[..n] == s.signed[..n - 1] + [s.signed[n - 1]];
    SizeSnoc(s.signed[..n - 1], s.signed[n - 1]);
  }

  lemma {:induction false} FailKeeps(s: Session)
    requires SessionOk(s)
    ensures SessionOk(Fails(s))
  {
    hide Size, FileSaved;
    var n := s.msgCounter - 1;
    if s.sender.Returned? {
      SizePrefix(s.signed[..n], n - 1);
      assert s.signed[..n][..n - 1] == s.signed[..n - 1];
    }
  }

  /** The sender's remaining steps. */
  lemma {:induction false} SenderStepsKeep(s: Session)
    requires SessionOk(s)
    ensures s.sender == Sent ==> SessionOk(Listens(s))
    ensures s.sender == Heard ==> SessionOk(Returns(s))
    ensures s.sender == Accounted ==> SessionOk(Concludes(s))
  {
    hide Size, FileSaved;
  }

  lemma {:induction false} ReceiveKeeps(s: Session, header: Header, msg: Msg)
    requires SessionOk(s) && s.receiver == Ready
    requires header.sessionNonce == s.nonce ==>
               1 <= header.sequenceNumber <= |s.signed| && msg == s.signed[header.sequenceNumber - 1]
    ensures SessionOk(Receives(s, header, msg))
  {
    hide Size, FileSaved;
    assert s.saved[..|s.acks|] == s.saved;
  }

  lemma {:induction false} WriteKeeps(s: Session)
    requires SessionOk(s) && s.receiver.Permitted?
    ensures SessionOk(Writes(s))
  {
    hide Size;
    var s' := Writes(s);
    assert s'.saved == s.signed[..|s.saved|] + [s.signed[|s.saved|]];
    assert s'.saved[..|s.acks|] == s.saved[..|s.acks|];
    assert s'.saved[..|s'.saved| - 1] == s.saved;
    forall i | 0 <= i < |s.saved|
      ensures s'.saved[i].file != s.receiver.msg.file
    {
      assert s.saved[i] in s.saved;
    }
  }

  lemma {:induction false} CountKeeps(s: Session)
    requires SessionOk(s) && s.receiver.Written?
    ensures SessionOk(Counts(s))
  {
    hide Size, FileSaved;
    var n := |s.saved| - 1;
    assert s.saved == s.saved[..n] + [s.saved[n]];
    SizeSnoc(s.saved[..n], s.saved[n]);
  }

  lemma {:induction false} AcknowledgeKeeps(s: Session)
    requires SessionOk(s) && s.receiver.Counted?
    ensures SessionOk(Acknowledges(s))
  {
    hide Size, FileSaved;
    assert s.saved[..|s.saved|] == s.saved;
  }

  /** The receiver's remaining steps. A file whose path is found free is one it has not saved in this session. */
  lemma {:induction false} ReceiverStepsKeep(s: Session)
    requires SessionOk(s)
    ensures s.receiver.Validated? && !FileSaved(s.saved, s.receiver.msg.file) ==> SessionOk(FindsPathFree(s))
    ensures s.receiver.PathFree? ==> SessionOk(IsPermitted(s))
    ensures SessionOk(Closes(s))
  {
    hide Size, FileSaved;
  }

  lemma {:induction false} NewSessionOk(peer: ClientId, nonce: TransportSessionNonce)
    ensures SessionOk(NewSession(peer, nonce))
  {
  }

  /** The files a receiver has saved are the first of those sent, in order and without repetition; it has
      saved every confirmed file and at most one more; a send that returns has had its file saved; and the
      bytes the sender has accounted for are at most those the receiver has counted. */
  lemma {:induction false} SessionGuarantees(s: Session)
    requires SessionOk(s)
    ensures s.saved <= s.signed
    ensures forall i, j :: 0 <= i < j < |s.saved| ==> s.saved[i].file != s.saved[j].file
    ensures s.msgCounter - 1 <= |s.saved| <= s.msgCounter
    ensures s.sender.Returned? || s.sender.Accounted? ==> s.saved == s.signed && s.signed != []
    ensures s.accounted <= s.counted
  {
    hide Size, FileSaved;
    var n := s.msgCounter - 1 - (if s.sender.Returned? then 1 else 0);
    assert s.signed[..n] == s.saved[..|s.acks|][..n];
    SizePrefix(s.saved[..|s.acks|], n);
  }
}
