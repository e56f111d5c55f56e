/** The client's sending loop: packfiles are sent and deleted while they are being written, index files
    after them. Between its steps the network, the peers and the packer do whatever they like. */
module Sending {
  import opened Wrappers
  import opened ByteStrings
  import opened FileNames
  import opened Sessions
  import opened Transfers
  import opened Exchanges
  import opened Turns

  /** What any step leaves as it was: files and what peers hold. Once packing is done no file is added. */
  ghost predicate Later(w: World, w': World) {
    w.files.Keys <= w'.files.Keys && (forall f :: f in w.files ==> w'.files[f] == w.files[f]) &&
    (forall f :: Held(w, f) ==> Held(w', f)) &&
    (w.packed ==> w'.packed && w'.files == w.files) && |w.sessions| <= |w'.sessions| && NewIndexesAreHigh(w, w')
  }

  /** Index files written later have numbers above all earlier ones. */
  ghost predicate NewIndexesAreHigh(w: World, w': World) {
    forall n: u32, m: u32 :: Index(n) in w'.files && Index(n) !in w.files && Index(m) in w.files ==> m < n
  }

  /** What others' steps also leave as it was: what is sent or deleted, and the sender's end of session i,
      which at most hears an acknowledgement. */
  ghost predicate Quiet(w: World, w': World, i: nat) {
    w.local <= w'.local && (w.packed ==> w'.local == w.local) && w'.highestSentIndex == w.highestSentIndex &&
    (i < |w.sessions| ==>
       i < |w'.sessions| && w'.sessions[i].signed == w.sessions[i].signed &&
       (w'.sessions[i].sender == w.sessions[i].sender ||
        (w.sessions[i].sender.Listening? && w'.sessions[i].sender.Heard?)))
  }

  lemma {:induction false} LaterTransitive(a: World, b: World, c: World)
    requires Later(a, b) && Later(b, c)
    ensures Later(a, c)
  {
    hide Held;
  }

  lemma {:induction false} LaterSame(w: World)
    ensures Later(w, w)
  {
    hide Held;
  }

  lemma {:induction false} NextIsLater(w: World, e: Event)
    requires Enabled(w, e)
    ensures Later(w, Next(w, e))
  {
    hide Held, SessionAfter;
    OnlyGrows(w, e);
    forall f | Held(w, f)
      ensures Held(Next(w, e), f)
    {
      HeldStays(w, e, f);
    }
  }

  lemma {:induction false} OthersAreQuiet(w: World, e: Event, i: nat)
    requires Enabled(w, e) && !IsClientEvent(e)
    ensures Quiet(w, Next(w, e), i)
  {
  }

  lemma {:induction false} RunSnoc(w: World, events: seq<Event>, e: Event)
    requires Runs(w, events) && Enabled(Run(w, events), e)
    ensures Runs(w, events + [e]) && Run(w, events + [e]) == Next(Run(w, events), e)
    decreases |events|
  {
    hide Next, Enabled;
    if events == [] {
      assert events + [e] == [e];
      assert Runs(Next(w, e), []);
    } else {
      assert (events + [e])[1..] == events[1..] + [e];
      RunSnoc(Next(w, events[0]), events[1..], e);
    }
  }

  // ----- Which index files are sent -----

  /** The numbers that send_index sends from a listing: each one above all that were sent before it. */
  function SentFrom(listing: seq<u32>, highest: Option<nat>): seq<u32> {
    if listing == [] then []
    else if highest.Some? && listing[0] <= highest.value then SentFrom(listing[1..], highest)
    else [listing[0]] + SentFrom(listing[1..], Some(listing[0]))
  }

  predicate IsNew(n: nat, highest: Option<nat>) {
    highest.None? || n > highest.value
  }

  /** The new numbers of the listing come in ascending order. */
  ghost predicate NewAscend(listing: seq<u32>, highest: Option<nat>) {
    forall i, j :: 0 <= i < j < |listing| && IsNew(listing[i], highest) && IsNew(listing[j], highest) ==>
      listing[i] < listing[j]
  }

  ghost predicate SendsAllNew(listing: seq<u32>, highest: Option<nat>) {
    forall n :: n in listing && IsNew(n, highest) ==> n in SentFrom(listing, highest)
  }

  lemma {:induction false} SentIsNew(listing: seq<u32>, highest: Option<nat>, n: u32)
    requires n in SentFrom(listing, highest)
    ensures n in listing && IsNew(n, highest)
  {
    if highest.Some? && listing[0] <= highest.value {
      SentIsNew(listing[1..], highest, n);
    } else if n != listing[0] {
      SentIsNew(listing[1..], Some(listing[0]), n);
    }
  }

  lemma {:induction false} AscendingIsSent(listing: seq<u32>, highest: Option<nat>)
    requires NewAscend(listing, highest)
    ensures SendsAllNew(listing, highest)
  {
    if listing != [] {
      var rest := listing[1..];
      if IsNew(listing[0], highest) {
        forall n | n in rest && IsNew(n, highest)
          ensures IsNew(n, Some(listing[0]))
        {
          var j :| 0 <= j < |rest| && rest[j] == n;
          assert listing[j + 1] == n;
        }
        AscendingIsSent(rest, Some(listing[0]));
      } else {
        AscendingIsSent(rest, highest);
      }
    }
  }

  lemma {:induction false} SentAscends(listing: seq<u32>, highest: Option<nat>)
    requires NoDuplicates(listing) && SendsAllNew(listing, highest)
    ensures NewAscend(listing, highest)
  {
    if listing != [] {
      var head, rest := listing[0], listing[1..];
      if IsNew(head, highest) {
        forall n | n in rest && IsNew(n, highest)
          ensures n > head && n in SentFrom(rest, Some(head))
        {
          assert n in listing && n != head;
          assert n in SentFrom(rest, Some(head));
          SentIsNew(rest, Some(head), n);
        }
        SentAscends(rest, Some(head));
      } else {
        forall n | n in rest && IsNew(n, highest)
          ensures n in SentFrom(rest, highest)
        {
          assert n in listing;
        }
        SentAscends(rest, highest);
      }
    }
  }

  /** All new index files of a listing are sent if and only if it lists them in ascending order. */
  lemma {:induction false} SendsAllIfAscending(listing: seq<u32>, highest: Option<nat>)
    requires NoDuplicates(listing)
    ensures SendsAllNew(listing, highest) <==> NewAscend(listing, highest)
  {
    if NewAscend(listing, highest) {
      AscendingIsSent(listing, highest);
    }
    if SendsAllNew(listing, highest) {
      SentAscends(listing, highest);
    }
  }

  /** A listing in another order leaves an index file unsent for good: 1 is skipped after 2. */
  lemma {:induction false} UnorderedListingSkips()
    ensures SentFrom([2, 1], None) == [2] && !SendsAllNew([2, 1], None)
  {
    assert SentFrom([2, 1][1..][1..], Some(2)) == [];
    assert 1 in [2, 1];
  }

  /** The files of these numbers. */
  function Indexes(numbers: seq<u32>): seq<FileInfo> {
    seq(|numbers|, k requires 0 <= k < |numbers| => Index(numbers[k]))
  }

  lemma {:induction false} IndexesFrom(listing: seq<u32>, k: nat, highest: Option<nat>)
    requires k < |listing|
    ensures IsNew(listing[k], highest) ==>
              var files := Indexes(SentFrom(listing[k..], highest));
              files != [] && files[0] == Index(listing[k]) &&
              files[1..] == Indexes(SentFrom(listing[k + 1..], Some(listing[k])))
    ensures !IsNew(listing[k], highest) ==> SentFrom(listing[k..], highest) == SentFrom(listing[k + 1..], highest)
  {
    assert listing[k..][1..] == listing[k + 1..];
  }

  lemma {:induction false} NoneNumbered(listing: seq<u32>, highest: Option<nat>)
    ensures Indexes(SentFrom(listing[|listing|..], highest)) == []
  {
  }

  // ----- The sending loop -----

  /** Index files up to the highest number sent are held by peers. */
  ghost predicate LowIndexesHeld(w: World) {
    forall n: u32 :: Index(n) in w.files && !IsNew(n, w.highestSentIndex) ==> Held(w, Index(n))
  }

  predicate IsIdle(w: World, i: nat) {
    i < |w.sessions| && w.sessions[i].sender.Idle?
  }

  /** No packfile is deleted; some may be added while packing goes on. */
  ghost predicate LocalKept(w: World, w': World) {
    w.local <= w'.local && (w.packed ==> w'.local == w.local)
  }

  /** Nothing is deleted or marked as sent. */
  ghost predicate AtRest(w: World, w': World) {
    LocalKept(w, w') && w'.highestSentIndex == w.highestSentIndex
  }

  function ToSet<T>(s: seq<T>): set<T> {
    set x | x in s
  }

  ghost predicate Advanced(s: Session, s': Session, e: Event) {
    s'.signed == (if e.Send? then s'.signed else s.signed) &&
    match e
    case Send(_, file) => s'.sender.Sent? && s'.signed != [] && Current(s').file == file
    case Listen(_) => s'.sender.Listening?
    case Return(_) => s'.sender.Returned?
    case Account(_) => s'.sender.Accounted?
    case Conclude(_) => s'.sender.Idle?
    case _ => e.Fail? ==> s'.sender.Failed?
  }

  lemma {:induction false} ClientFrame(w: World, e: Event)
    requires Enabled(w, e) && IsClientEvent(e)
    ensures e.i < |w.sessions| && e.i < |Next(w, e).sessions| && Advanced(w.sessions[e.i], Next(w, e).sessions[e.i], e)
    ensures !e.Conclude? ==> AtRest(w, Next(w, e))
  {
  }

  lemma {:induction false} QuietIsAtRest(w: World, w': World, i: nat)
    requires Quiet(w, w', i)
    ensures AtRest(w, w')
    ensures i < |w.sessions| ==> i < |w'.sessions| && w'.sessions[i].signed == w.sessions[i].signed
    ensures i < |w.sessions| ==>
              w'.sessions[i].sender == w.sessions[i].sender ||
              (w.sessions[i].sender.Listening? && w'.sessions[i].sender.Heard?)
  {
  }

  lemma {:induction false} AtRestTransitive(a: World, b: World, c: World)
    requires AtRest(a, b) && AtRest(b, c) && Later(a, b)
    ensures AtRest(a, c)
  {
    hide Held;
  }

  lemma {:induction false} QuietSame(w: World, i: nat)
    ensures Quiet(w, w, i)
  {
  }

  lemma {:induction false} QuietTransitive(a: World, b: World, c: World, i: nat)
    requires Quiet(a, b, i) && Quiet(b, c, i) && Later(a, b)
    ensures Quiet(a, c, i)
  {
    hide Held;
  }

  lemma {:induction false} ReturnedIsHeld(w: World, i: nat)
    requires WorldOk(w) && i < |w.sessions| && w.sessions[i].signed != [] &&
             (w.sessions[i].sender.Returned? || w.sessions[i].sender.Accounted?)
    ensures Held(w, Current(w.sessions[i]).file)
  {
    hide SessionsOk, FilesOk, DisksOk, NothingLost, IndexSent, Held;
    AccountedIsHeld(w, i);
  }

  /** What could be sent still can after others have acted. */
  lemma {:induction false} StillThere(w: World, w': World, file: FileInfo)
    requires Later(w, w') && AtRest(w, w') && file in w.files && (file.Packfile? ==> file in w.local)
    ensures file in w'.files && (file.Packfile? ==> file in w'.local)
  {
    hide Held, NewIndexesAreHigh;
  }

  /** Of the local packfiles only these are deleted; no index file is marked as sent. */
  ghost predicate Deleted(w: World, w': World, files: set<FileInfo>) {
    w.local - files <= w'.local && (w.packed ==> w'.local == w.local - files) &&
    w'.highestSentIndex == w.highestSentIndex
  }

  lemma {:induction false} DeletedMore(a: World, b: World, c: World, files: set<FileInfo>, file: FileInfo)
    requires Deleted(a, b, files) && Deleted(b, c, {file}) && Later(a, b)
    ensures Deleted(a, c, files + {file})
  {
    hide Held, NewIndexesAreHigh;
  }

  lemma {:induction false} ConcludeFrame(w: World, i: nat)
    requires Enabled(w, Conclude(i))
    ensures w.sessions[i].signed != []
    ensures var file := Current(w.sessions[i]).file;
            (file.Packfile? ==> Deleted(w, Next(w, Conclude(i)), {file})) &&
            (file.Index? ==>
              Next(w, Conclude(i)).local == w.local && Next(w, Conclude(i)).highestSentIndex == Some(file.number))
    ensures IsIdle(Next(w, Conclude(i)), i)
  {
  }

  lemma {:induction false} LocalIsWritten(w: World, f: FileInfo)
    requires WorldOk(w) && f in w.local
    ensures f in w.files
  {
    hide SessionsOk, FilesOk, DisksOk, IndexSent, Held;
  }

  lemma {:induction false} LowIndexesStay(w: World, w': World)
    requires WorldOk(w) && Later(w, w') && w'.highestSentIndex == w.highestSentIndex && LowIndexesHeld(w)
    ensures LowIndexesHeld(w')
  {
    hide SessionsOk, FilesOk, DisksOk, NothingLost, Held;
  }

  /** How far sending a listing has come: the highest number sent is the old one or a new one of the listing. */
  ghost predicate Progress(listing: seq<u32>, k: nat, h0: Option<nat>, h: Option<nat>)
    requires k <= |listing|
  {
    h == h0 || exists j :: 0 <= j < k && IsNew(listing[j], h0) && h == Some(listing[j])
  }

  /** The new numbers among the first k are held. */
  ghost predicate HeldUpTo(w: World, listing: seq<u32>, k: nat, h0: Option<nat>)
    requires k <= |listing|
  {
    forall j :: 0 <= j < k && IsNew(listing[j], h0) ==> Held(w, Index(listing[j]))
  }

  /** In an ascending listing an index file is skipped just when it is not new. */
  lemma {:induction false} SkippedIsOld(listing: seq<u32>, k: nat, h0: Option<nat>, h: Option<nat>)
    requires k < |listing| && Progress(listing, k, h0, h) && NewAscend(listing, h0)
    ensures IsNew(listing[k], h) <==> IsNew(listing[k], h0)
  {
  }

  ghost predicate Lists(w: World, listing: seq<u32>) {
    forall n: u32 :: Index(n) in w.files <==> n in listing
  }

  lemma {:induction false} ProgressKeepsLow(w: World, w': World, listing: seq<u32>, k: nat)
    requires WorldOk(w) && Later(w, w') && LowIndexesHeld(w) && Lists(w, listing) && k <= |listing|
    requires NewAscend(listing, w.highestSentIndex)
    requires Progress(listing, k, w.highestSentIndex, w'.highestSentIndex) &&
             HeldUpTo(w', listing, k, w.highestSentIndex)
    ensures LowIndexesHeld(w')
  {
    hide SessionsOk, FilesOk, DisksOk, NothingLost, Held;
    var h0, h := w.highestSentIndex, w'.highestSentIndex;
    forall n: u32 | Index(n) in w'.files && !IsNew(n, h)
      ensures Held(w', Index(n))
    {
      if h != h0 {
        var j :| 0 <= j < k && IsNew(listing[j], h0) && h == Some(listing[j]);
        assert Index(listing[j]) in w.files by { assert listing[j] in listing; }
        assert Index(n) in w.files;
        if IsNew(n, h0) {
          assert n in listing;
          var at :| 0 <= at < |listing| && listing[at] == n;
          assert at <= j;
        }
      }
    }
  }

  ghost predicate AllHeld(w: World, numbers: seq<u32>) {
    forall n :: n in numbers ==> Held(w, Index(n))
  }

  lemma {:induction false} LocalKeptSame(w: World)
    ensures LocalKept(w, w)
  {
  }

  lemma {:induction false} LocalKeptTransitive(a: World, b: World, c: World)
    requires LocalKept(a, b) && LocalKept(b, c) && Later(a, b)
    ensures LocalKept(a, c)
  {
    hide Held, NewIndexesAreHigh;
  }

  lemma {:induction false} SendingStarts(w: World, listing: seq<u32>)
    ensures SentFrom(listing, w.highestSentIndex) == [] + SentFrom(listing[0..], w.highestSentIndex) && AllHeld(w, [])
    ensures Progress(listing, 0, w.highestSentIndex, w.highestSentIndex) && HeldUpTo(w, listing, 0, w.highestSentIndex)
  {
    assert listing[0..] == listing;
  }

  /** What is sent from the k-th number on, and what it means to skip it. */
  lemma {:induction false} SendingStep(w: World, listing: seq<u32>, k: nat, h0: Option<nat>, sent: seq<u32>)
    requires k < |listing| && SentFrom(listing, h0) == sent + SentFrom(listing[k..], w.highestSentIndex)
    ensures IsNew(listing[k], w.highestSentIndex) ==>
              SentFrom(listing, h0) == sent + [listing[k]] + SentFrom(listing[k + 1..], Some(listing[k]))
    ensures !IsNew(listing[k], w.highestSentIndex) ==>
              SentFrom(listing, h0) == sent + SentFrom(listing[k + 1..], w.highestSentIndex) &&
              (NewAscend(listing, h0) && Progress(listing, k, h0, w.highestSentIndex) && HeldUpTo(w, listing, k, h0) ==>
                 Progress(listing, k + 1, h0, w.highestSentIndex) && HeldUpTo(w, listing, k + 1, h0))
  {
    hide Held;
    assert listing[k..][1..] == listing[k + 1..];
    if IsNew(listing[k], w.highestSentIndex) {
      Assoc(sent, [listing[k]], SentFrom(listing[k + 1..], Some(listing[k])));
    } else if NewAscend(listing, h0) && Progress(listing, k, h0, w.highestSentIndex) {
      SkippedIsOld(listing, k, h0, w.highestSentIndex);
    }
  }

  lemma {:induction false} SentStaysHeld(w: World, w': World, listing: seq<u32>, k: nat, h0: Option<nat>,
                                         sent: seq<u32>)
    requires Later(w, w') && k <= |listing|
    ensures AllHeld(w, sent) ==> AllHeld(w', sent)
    ensures HeldUpTo(w, listing, k, h0) ==> HeldUpTo(w', listing, k, h0)
  {
    hide Held;
  }

  lemma {:induction false} SendingSent(w: World, listing: seq<u32>, k: nat, h0: Option<nat>, h: Option<nat>,
                                       sent: seq<u32>)
    requires k < |listing| && Held(w, Index(listing[k])) && IsNew(listing[k], h)
    ensures AllHeld(w, sent) ==> AllHeld(w, sent + [listing[k]])
    ensures NewAscend(listing, h0) && Progress(listing, k, h0, h) && HeldUpTo(w, listing, k, h0) ==>
              Progress(listing, k + 1, h0, Some(listing[k])) && HeldUpTo(w, listing, k + 1, h0)
  {
    hide Held;
    if NewAscend(listing, h0) && Progress(listing, k, h0, h) {
      SkippedIsOld(listing, k, h0, h);
    }
  }

  lemma {:induction false} StillWritten(w: World, w': World, n: u32)
    requires Later(w, w') && Index(n) in w.files
    ensures Index(n) in w'.files
  {
    hide Held, NewIndexesAreHigh;
  }

  lemma {:induction false} NothingLeft(listing: seq<u32>, sent: seq<u32>, h0: Option<nat>, h: Option<nat>)
    requires SentFrom(listing, h0) == sent + SentFrom(listing[|listing|..], h)
    ensures sent == SentFrom(listing, h0)
  {
  }

  /** What sending the first k numbers of an ascending listing of all index files leaves. */
  lemma {:induction false} LowIndexesResult(w: World, w': World, listing: seq<u32>, k: nat)
    requires WorldOk(w) && Later(w, w') && k <= |listing|
    requires NewAscend(listing, w.highestSentIndex) ==>
               Progress(listing, k, w.highestSentIndex, w'.highestSentIndex) &&
               HeldUpTo(w', listing, k, w.highestSentIndex)
    ensures LowIndexesHeld(w) && Lists(w, listing) && NewAscend(listing, w.highestSentIndex) ==>
              LowIndexesHeld(w') && (k == |listing| ==> AllHeld(w', listing))
  {
    hide WorldOk, Held, NewAscend, NewIndexesAreHigh;
    if LowIndexesHeld(w) && Lists(w, listing) && NewAscend(listing, w.highestSentIndex) {
      ProgressKeepsLow(w, w', listing, k);
      if k == |listing| {
        forall n | n in listing
          ensures Held(w', Index(n))
        {
          if !IsNew(n, w.highestSentIndex) {
            assert Held(w, Index(n));
          }
        }
      }
    }
  }

  ghost predicate IndexesHeld(w: World) {
    forall n: u32 :: Index(n) in w.files ==> Held(w, Index(n))
  }

  lemma {:induction false} LocalIsPackfiles(w: World)
    requires WorldOk(w)
    ensures forall f :: f in w.local ==> f.Packfile?
  {
    hide SessionsOk, FilesOk, DisksOk, IndexSent, Held;
  }

  lemma {:induction false} ListedAreHeld(w: World, w': World, listing: seq<u32>)
    requires w.packed && Later(w, w') && Lists(w, listing) && AllHeld(w', listing)
    ensures IndexesHeld(w')
  {
    hide Held;
  }

  lemma {:induction false} StillPacked(w: World, w': World)
    requires Later(w, w') && LocalKept(w, w')
    ensures w.packed && w.local == {} ==> w'.packed && w'.local == {}
  {
    hide Held;
  }

  lemma {:induction false} EverythingHeld(w: World)
    requires WorldOk(w) && w.local == {}
    ensures forall f :: f in w.files && f.Packfile? ==> Held(w, f)
    ensures IndexesHeld(w) ==> forall f :: f in w.files ==> Held(w, f)
  {
    hide SessionsOk, FilesOk, DisksOk, IndexSent, Held;
  }

  lemma {:induction false} LaterHolds(w: World, w': World, f: FileInfo)
    requires Later(w, w') && Held(w, f)
    ensures Held(w', f)
  {
    hide Held;
  }

  lemma {:induction false} FinishFrame(a: World, b: World, c: World, file: FileInfo)
    requires AtRest(a, b) && Later(a, b)
    requires file.Packfile? ==> Deleted(b, c, {file})
    requires file.Index? ==> c.local == b.local
    ensures file.Packfile? ==> Deleted(a, c, {file})
    ensures file.Index? ==> LocalKept(a, c)
  {
  }

  lemma {:induction false} DeletedAfterRest(a: World, b: World, c: World, file: FileInfo)
    requires AtRest(a, b) && Later(a, b) && Deleted(b, c, {file})
    ensures Deleted(a, c, {file})
  {
  }

  // ----- One round of the loop -----

  /** Where the loop is between two rounds. */
  datatype Position = Position(world: World, clock: nat, connection: Option<nat>, packfilesDone: bool)

  /** The orders in which a round lists the two folders. */
  datatype Listings = Listings(packfiles: seq<FileInfo>, indexes: seq<u32>)

  function Waited(env: Surroundings, a: Position): Position {
    a.(world := Turn(a.world, env.others(a.clock)), clock := a.clock + 1)
  }

  /** The session offered is taken if it can be sent on. */
  function Offered(env: Surroundings, w: World, clock: nat): Option<nat> {
    if env.offers(clock).Some? && IsIdle(w, env.offers(clock).value) then env.offers(clock) else None
  }

  function Connected(env: Surroundings, a: Position): Position {
    if a.connection.Some? then a
    else var b := Waited(env, a); b.(clock := b.clock + 1, connection := Offered(env, b.world, b.clock))
  }

  /** There is something to send, or packing is over. */
  predicate HasNews(env: Surroundings, a: Position) {
    (env.outcomes(a.clock) || a.world.packed) && !a.packfilesDone
  }

  function PackfilesSent(env: Surroundings, a: Position, i: nat, files: seq<FileInfo>): Position {
    var w := AfterFiles(env, a.clock, a.world, i, files);
    var b := Waited(env, a.(world := w, clock := a.clock + 8 * |files|));
    b.(packfilesDone := b.world.packed && b.world.local == {})
  }

  ghost predicate ListsAll(listing: seq<FileInfo>, files: set<FileInfo>) {
    NoDuplicates(listing) && forall f :: f in listing <==> f in files
  }

  /** The index files that are still to be sent, in the order of the listing. */
  function Unsent(w: World, listing: seq<u32>): seq<FileInfo> {
    Indexes(SentFrom(listing, w.highestSentIndex))
  }

  /** A connection on which a file did not go through is given up. */
  ghost predicate GivenUp(a: Position, b: Position) {
    Later(a.world, b.world) && b.connection.None? && b.packfilesDone == a.packfilesDone
  }

  ghost predicate IndexRound(env: Surroundings, a: Position, i: nat, b: Position, listing: seq<u32>, done: bool) {
    Lists(a.world, listing) && (done <==> AllGoThrough(env, a.clock, a.world, i, Unsent(a.world, listing))) &&
    (done ==> b.world == AfterFiles(env, a.clock, a.world, i, Unsent(a.world, listing))) && (!done ==> GivenUp(a, b))
  }

  /** A round that leads from a to b, or, when done, ends the loop there: no connection, no news, packfiles still to
      come, a file that does not go through, or all sent. */
  ghost predicate Round(env: Surroundings, a: Position, b: Position, listings: Listings, done: bool) {
    var s := Connected(env, a);
    if s.connection.None? then !done && b == Waited(env, s)
    else
      var i, s1 := s.connection.value, s.(clock := s.clock + 1);
      if HasNews(env, s) then
        ListsAll(listings.packfiles, s1.world.local) &&
        if !AllGoThrough(env, s1.clock, s1.world, i, listings.packfiles) then !done && GivenUp(s1, b)
        else
          var s2 := PackfilesSent(env, s1, i, listings.packfiles);
          if s2.packfilesDone then IndexRound(env, s2, i, b, listings.indexes, done)
          else !done && b == Waited(env, s2)
      else if s.packfilesDone then IndexRound(env, s1, i, b, listings.indexes, done)
      else !done && b == Waited(env, s1)
  }

  /** Rounds one after the other, only the last of which may end the loop. */
  ghost predicate AreRounds(env: Surroundings, log: seq<Position>, orders: seq<Listings>, done: bool) {
    |log| == |orders| + 1 &&
    forall k :: 0 <= k < |orders| ==> Round(env, log[k], log[k + 1], orders[k], done && k == |orders| - 1)
  }

  lemma {:induction false} OneMoreRound(env: Surroundings, log: seq<Position>, orders: seq<Listings>,
                                        b: Position, listings: Listings, done: bool)
    requires AreRounds(env, log, orders, false) && Round(env, log[|log| - 1], b, listings, done)
    ensures AreRounds(env, log + [b], orders + [listings], done)
  {
    hide Round;
  }

  /** When packing is over and a peer is there that answers at once and has room for everything, one round sends
      it all. */
  lemma {:induction false} PromptRoundIsTheLast(env: Surroundings, a: Position, b: Position, listings: Listings,
                                                done: bool)
    requires Round(env, a, b, listings, done) && Connected(env, a).connection.Some? && !a.packfilesDone
    requires WorldOk(Connected(env, a).world) && Connected(env, a).world.packed
    requires var s := Connected(env, a);
             var i, c, files := s.connection.value, s.clock + 1, listings.packfiles;
             AllPrompt(env, c, s.world, i, files) && env.others(c + 8 * |files|) == [] &&
             var s2 := PackfilesSent(env, s.(clock := c), i, files);
             AllPrompt(env, s2.clock, s2.world, i, Unsent(s2.world, listings.indexes))
    ensures done
  {
    hide AllPrompt, AllExchanged, AllGoThrough, AfterFiles, Unsent, WorldOk, Lists, GivenUp;
    var s := Connected(env, a);
    var i, c, files := s.connection.value, s.clock + 1, listings.packfiles;
    PromptPeerGetsAll(env, c, s.world, i, files);
    LocalIsPackfiles(s.world);
    NoneStayLocal(s.world, AfterFiles(env, c, s.world, i, files), i, files);
    var s2 := PackfilesSent(env, s.(clock := c), i, files);
    PromptPeerGetsAll(env, s2.clock, s2.world, i, Unsent(s2.world, listings.indexes));
  }

  lemma {:induction false} NoneStayLocal(w: World, w': World, i: nat, listing: seq<FileInfo>)
    requires AllExchanged(w, w', i, listing) && ListsAll(listing, w.local) && forall f :: f in w.local ==> f.Packfile?
    ensures w'.packed == w.packed && w'.local == {}
  {
    hide InStep, Contents;
  }

  datatype Outcome = SentAll | StillSending

  class Client {
    var world: World
    var clock: nat

    const env: Surroundings

    ghost const start: World
    ghost var trace: seq<Event>

    ghost predicate Valid()
      reads this
    {
      WorldOk(world) && Runs(start, trace) && world == Run(start, trace)
    }

    constructor (start: World, env: Surroundings)
      requires WorldOk(start)
      ensures Valid() && world == start && clock == 0 && this.env == env
    {
      this.start, world, clock, trace := start, start, 0, [];
      this.env := env;
    }

    method Step(e: Event)
      requires Valid() && Enabled(world, e)
      modifies this`world, this`trace
      ensures Valid() && world == Next(old(world), e) && Later(old(world), world)
    {
      hide WorldOk, Runs, Run, Enabled, Next, Later;
      EventKeepsWorld(world, e);
      NextIsLater(world, e);
      RunSnoc(start, trace, e);
      trace := trace + [e];
      world := Next(world, e);
    }

    method Succeeds() returns (ok: bool)
      modifies this`clock
      ensures ok == env.outcomes(old(clock)) && clock == old(clock) + 1
    {
      ok := env.outcomes(clock);
      clock := clock + 1;
    }

    /** Time passes: others take their next steps, as far as these are possible. */
    method LetOthersAct(i: nat)
      requires Valid()
      modifies this
      ensures Valid() && Later(old(world), world) && AtRest(old(world), world)
      ensures world == Turn(old(world), env.others(old(clock))) && clock == old(clock) + 1
      ensures i < |old(world).sessions| ==>
                i < |world.sessions| && world.sessions[i].signed == old(world.sessions[i].signed)
      ensures i < |old(world).sessions| ==>
                world.sessions[i].sender == old(world.sessions[i].sender) ||
                (old(world.sessions[i].sender).Listening? && world.sessions[i].sender.Heard?)
    {
      hide WorldOk, Runs, Run, Enabled, Next, Later, Quiet;
      var events := env.others(clock);
      clock := clock + 1;
      var n := 0;
      LaterSame(world);
      QuietSame(world, i);
      assert events[0..] == events;
      while n < |events|
        invariant 0 <= n <= |events|
        invariant Turn(old(world), events) == Turn(world, events[n..]) && clock == old(clock) + 1
        invariant Valid() && Later(old(world), world) && Quiet(old(world), world, i)
      {
        assert events[n..][1..] == events[n + 1..];
        if !IsClientEvent(events[n]) && Enabled(world, events[n]) {
          ghost var before := world;
          OthersAreQuiet(world, events[n], i);
          Step(events[n]);
          LaterTransitive(old(world), before, world);
          QuietTransitive(old(world), before, world, i);
        }
        n := n + 1;
      }
      QuietIsAtRest(old(world), world, i);
    }

    /** Takes one of the client's own steps that neither deletes a file nor marks an index file as sent. */
    method StepOfSession(e: Event)
      requires Valid() && Enabled(world, e) && IsClientEvent(e) && !e.Conclude?
      modifies this`world, this`trace
      ensures Valid() && world == Next(old(world), e) && Later(old(world), world)
      ensures e.i < |old(world).sessions| && e.i < |world.sessions|
      ensures AtRest(old(world), world) && Advanced(old(world).sessions[e.i], world.sessions[e.i], e)
    {
      hide WorldOk, Runs, Run, Enabled, Next, Later;
      ClientFrame(world, e);
      Step(e);
    }

    /** Waits until the acknowledgement is heard, or the peer is taken for disconnected. */
    method AwaitAck(i: nat) returns (ok: bool)
      requires Valid() && i < |world.sessions| && world.sessions[i].sender.Sent?
      modifies this
      ensures Valid() && Later(old(world), world) && AtRest(old(world), world)
      ensures i < |world.sessions| && world.sessions[i].signed == old(world.sessions[i].signed)
      ensures var w := Turn(Act(old(world), Listen(i)), env.others(old(clock)));
              ok == IsHeardIn(w, i) && (ok ==> world == Act(w, Return(i)))
      ensures clock == old(clock) + 1
      ensures ok ==> world.sessions[i].sender.Returned?
    {
      hide WorldOk, Runs, Run, Later, Next, SessionAfter;
      ghost var w0 := world;
      StepOfSession(Listen(i));
      ghost var w1 := world;
      LetOthersAct(i);
      ghost var w2 := world;
      LaterTransitive(w0, w1, w2);
      AtRestTransitive(w0, w1, w2);
      ok := world.sessions[i].sender.Heard?;
      StepOfSession(if ok then Return(i) else Fail(i));
      LaterTransitive(w0, w2, world);
      AtRestTransitive(w0, w2, world);
    }

    /** Sends a file and waits for its acknowledgement. It succeeds just if the message goes out and the
        acknowledgement comes, and then the peer holds the file. */
    method SendData(i: nat, file: FileInfo) returns (ok: bool)
      requires Valid() && IsIdle(world, i) && file in world.files && (file.Packfile? ==> file in world.local)
      modifies this
      ensures Valid() && Later(old(world), world) && AtRest(old(world), world)
      ensures i < |world.sessions|
      ensures ok <==> IsAcked(env, old(clock), old(world), i, file)
      ensures ok ==> clock == old(clock) + 4 &&
                     world == Act(Listened(env, old(clock), old(world), i, file), Return(i))
      ensures ok ==> world.sessions[i].sender.Returned? && world.sessions[i].signed != [] &&
                     Current(world.sessions[i]).file == file && Held(world, file)
    {
      hide WorldOk, Runs, Run, Later, Held, Next, SessionAfter;
      ghost var w0 := world;
      LetOthersAct(i);
      ghost var w1 := world;
      StillThere(w0, w1, file);
      StepOfSession(Send(i, file));
      ghost var w2 := world;
      LaterTransitive(w0, w1, w2);
      AtRestTransitive(w0, w1, w2);
      LetOthersAct(i);
      ghost var w3 := world;
      LaterTransitive(w0, w2, w3);
      AtRestTransitive(w0, w2, w3);
      var sent := Succeeds();
      if sent {
        ok := AwaitAck(i);
      } else {
        StepOfSession(Fail(i));
        ok := false;
      }
      LaterTransitive(w0, w3, world);
      AtRestTransitive(w0, w3, world);
      if ok {
        ReturnedIsHeld(world, i);
      }
    }

    /** After the acknowledgement: counts the bytes, then deletes the packfile or records the index number. */
    method Finish(i: nat, file: FileInfo) returns (ok: bool)
      requires Valid() && i < |world.sessions| && world.sessions[i].sender.Returned? && world.sessions[i].signed != []
      requires Current(world.sessions[i]).file == file
      modifies this
      ensures Valid() && Later(old(world), world)
      ensures !ok ==> AtRest(old(world), world)
      ensures ok && file.Packfile? ==> Deleted(old(world), world, {file})
      ensures ok && file.Index? ==> LocalKept(old(world), world) && world.highestSentIndex == Some(file.number)
      ensures ok ==> IsIdle(world, i)
      ensures ok <==> env.outcomes(old(clock) + 1) && env.outcomes(old(clock) + 3)
      ensures ok ==> clock == old(clock) + 4 && world == Finished(env, old(clock), old(world), i)
    {
      hide WorldOk, Runs, Run, Later, Next, SessionAfter;
      ghost var w0 := world;
      ok := CountSent(i);
      ghost var w1 := world;
      if !ok {
        return;
      }
      LetOthersAct(i);
      ghost var w2 := world;
      LaterTransitive(w0, w1, w2);
      AtRestTransitive(w0, w1, w2);
      ok := Succeeds();
      if !ok {
        StepOfSession(Fail(i));
        LaterTransitive(w0, w2, world);
        AtRestTransitive(w0, w2, world);
        return;
      }
      ConcludeFrame(world, i);
      Step(Conclude(i));
      LaterTransitive(w0, w2, world);
      FinishFrame(w0, w2, world, file);
    }

    /** Counts the bytes sent, while others go on. */
    method CountSent(i: nat) returns (ok: bool)
      requires Valid() && i < |world.sessions| && world.sessions[i].sender.Returned? && world.sessions[i].signed != []
      modifies this
      ensures Valid() && Later(old(world), world) && AtRest(old(world), world)
      ensures ok ==>
                i < |world.sessions| && world.sessions[i].signed == old(world.sessions[i].signed) &&
                world.sessions[i].sender.Accounted?
      ensures ok == env.outcomes(old(clock) + 1) && clock == old(clock) + 2
      ensures ok ==> world == Act(Turn(old(world), env.others(old(clock))), Account(i))
    {
      hide WorldOk, Runs, Run, Later, Next, SessionAfter;
      ghost var w0 := world;
      LetOthersAct(i);
      ghost var w1 := world;
      ok := Succeeds();
      StepOfSession(if ok then Account(i) else Fail(i));
      LaterTransitive(w0, w1, world);
      AtRestTransitive(w0, w1, world);
    }

    /** Sends one packfile and deletes it once its receipt is confirmed. */
    method SendSinglePackfile(i: nat, file: FileInfo) returns (ok: bool)
      requires Valid() && IsIdle(world, i) && file.Packfile? && file in world.local
      modifies this
      ensures Valid() && Later(old(world), world)
      ensures ok ==> IsIdle(world, i) && Held(world, file) && Deleted(old(world), world, {file})
      ensures !ok ==> AtRest(old(world), world)
      ensures ok <==> GoesThrough(env, old(clock), old(world), i, file)
      ensures ok ==> clock == old(clock) + 8 && world == AfterFile(env, old(clock), old(world), i, file)
    {
      hide WorldOk, Runs, Run, Later, Held, Next, AtRest, Deleted;
      ghost var w0 := world;
      LocalIsWritten(world, file);
      ok := SendData(i, file);
      ghost var w1 := world;
      if ok {
        ok := Finish(i, file);
        LaterTransitive(w0, w1, world);
        LaterHolds(w1, world, file);
        if ok {
          DeletedAfterRest(w0, w1, world, file);
        } else {
          AtRestTransitive(w0, w1, world);
        }
      }
    }

    /** Sends the packfiles of a directory listing one after the other, until one fails. */
    method SendPackfilesFromFolder(i: nat, listing: seq<FileInfo>) returns (ok: bool)
      requires Valid() && IsIdle(world, i) && NoDuplicates(listing)
      requires forall f :: f in listing ==> f.Packfile? && f in world.local
      modifies this
      ensures Valid() && Later(old(world), world) && world.highestSentIndex == old(world.highestSentIndex)
      ensures ok ==>
                IsIdle(world, i) && Deleted(old(world), world, ToSet(listing)) && forall f :: f in listing ==>
                  Held(world, f)
      ensures ok <==> AllGoThrough(env, old(clock), old(world), i, listing)
      ensures ok ==> clock == old(clock) + 8 * |listing| &&
                     world == AfterFiles(env, old(clock), old(world), i, listing)
    {
      hide WorldOk, Runs, Run, Later, Held, Next, AllGoThrough, AfterFiles, GoesThrough, AfterFile, ComesDownTo;
      ghost var w0, c0 := world, clock;
      assert listing[0..] == listing;
      NothingSent(env, i, c0, w0, listing);
      LaterSame(world);
      var k := 0;
      while k < |listing|
        invariant 0 <= k <= |listing|
        invariant Valid() && Later(w0, world) && IsIdle(world, i)
        invariant Deleted(w0, world, ToSet(listing[..k]))
        invariant ComesDownTo(env, i, c0, w0, listing, clock, world, listing[k..])
        invariant forall f :: f in listing[..k] ==> Held(world, f)
      {
        ghost var w1 := world;
        assert listing[k] !in listing[..k];
        assert listing[k..][1..] == listing[k + 1..];
        OneLess(env, i, c0, w0, listing, clock, world, listing[k..]);
        ok := SendSinglePackfile(i, listing[k]);
        LaterTransitive(w0, w1, world);
        if !ok {
          return;
        }
        DeletedMore(w0, w1, world, ToSet(listing[..k]), listing[k]);
        assert ToSet(listing[..k + 1]) == ToSet(listing[..k]) + {listing[k]};
        forall f | f in listing[..k + 1]
          ensures Held(world, f)
        {
          if f in listing[..k] {
            LaterHolds(w1, world, f);
          }
        }
        k := k + 1;
      }
      assert listing[..k] == listing && listing[k..] == [];
      NoneLeft(env, i, c0, w0, listing, clock, world);
      ok := true;
    }

    /** Sends one index file and records its number. */
    method SendOneIndex(i: nat, n: u32) returns (ok: bool)
      requires Valid() && IsIdle(world, i) && Index(n) in world.files
      modifies this
      ensures Valid() && Later(old(world), world) && LocalKept(old(world), world)
      ensures ok ==> IsIdle(world, i) && Held(world, Index(n)) && world.highestSentIndex == Some(n)
      ensures !ok ==> world.highestSentIndex == old(world.highestSentIndex)
      ensures ok <==> GoesThrough(env, old(clock), old(world), i, Index(n))
      ensures ok ==> clock == old(clock) + 8 && world == AfterFile(env, old(clock), old(world), i, Index(n))
    {
      hide WorldOk, Runs, Run, Later, Held, Next;
      ghost var w0 := world;
      ok := SendData(i, Index(n));
      ghost var w1 := world;
      if ok {
        ok := Finish(i, Index(n));
        LaterTransitive(w0, w1, world);
        LaterHolds(w1, world, Index(n));
        LocalKeptTransitive(w0, w1, world);
      }
    }

    /** Sends the index files of a listing that are above the highest number sent so far, until one fails. */
    method SendIndex(i: nat, listing: seq<u32>) returns (ok: bool, ghost sent: seq<u32>)
      requires Valid() && IsIdle(world, i) && forall n :: n in listing ==> Index(n) in world.files
      modifies this
      ensures Valid() && Later(old(world), world) && LocalKept(old(world), world)
      ensures sent <= SentFrom(listing, old(world.highestSentIndex)) && AllHeld(world, sent)
      ensures ok ==> IsIdle(world, i) && sent == SentFrom(listing, old(world.highestSentIndex))
      ensures var files := Indexes(SentFrom(listing, old(world.highestSentIndex)));
              (ok <==> AllGoThrough(env, old(clock), old(world), i, files)) &&
              (ok ==> clock == old(clock) + 8 * |files| && world == AfterFiles(env, old(clock), old(world), i, files))
      ensures LowIndexesHeld(old(world)) && Lists(old(world), listing) &&
              NewAscend(listing, old(world.highestSentIndex)) ==>
                LowIndexesHeld(world) && (ok ==> AllHeld(world, listing))
    {
      hide WorldOk, Runs, Run, Later, Held, Next, LocalKept, AllHeld, LowIndexesHeld, SentFrom, NewAscend, Progress,
           HeldUpTo, Lists, IsNew, AllGoThrough, AfterFiles, GoesThrough, AfterFile, ComesDownTo, Indexes;
      ghost var w0, c0 := world, clock;
      ghost var h0 := world.highestSentIndex;
      ghost var files := Indexes(SentFrom(listing, h0));
      assert listing[0..] == listing;
      NothingSent(env, i, c0, w0, files);
      LaterSame(world);
      LocalKeptSame(world);
      SendingStarts(world, listing);
      var k := 0;
      sent := [];
      while k < |listing|
        invariant 0 <= k <= |listing|
        invariant Valid() && Later(w0, world) && IsIdle(world, i) && LocalKept(w0, world)
        invariant SentFrom(listing, h0) == sent + SentFrom(listing[k..], world.highestSentIndex) && AllHeld(world, sent)
        invariant NewAscend(listing, h0) ==>
                    Progress(listing, k, h0, world.highestSentIndex) && HeldUpTo(world, listing, k, h0)
        invariant ComesDownTo(env, i, c0, w0, files, clock, world,
                              Indexes(SentFrom(listing[k..], world.highestSentIndex)))
      {
        ghost var w1 := world;
        var n := listing[k];
        IndexesFrom(listing, k, world.highestSentIndex);
        SendingStep(world, listing, k, h0, sent);
        if !IsNew(n, world.highestSentIndex) {
          k := k + 1;
          continue;
        }
        StillWritten(w0, w1, n);
        OneLess(env, i, c0, w0, files, clock, world, Indexes(SentFrom(listing[k..], world.highestSentIndex)));
        ok := SendOneIndex(i, n);
        LaterTransitive(w0, w1, world);
        LocalKeptTransitive(w0, w1, world);
        SentStaysHeld(w1, world, listing, k, h0, sent);
        if !ok {
          LowIndexesResult(w0, world, listing, k);
          return;
        }
        SendingSent(world, listing, k, h0, w1.highestSentIndex, sent);
        sent := sent + [n];
        k := k + 1;
      }
      ok := true;
      NoneNumbered(listing, world.highestSentIndex);
      NoneLeft(env, i, c0, w0, files, clock, world);
      LowIndexesResult(w0, world, listing, k);
      NothingLeft(listing, sent, h0, world.highestSentIndex);
    }

    /** Reads the packfiles folder, in whatever order it lists its files. */
    method ListPackfiles() returns (listing: seq<FileInfo>)
      ensures ListsAll(listing, world.local)
    {
      listing := [];
      var files := world.local;
      while files != {}
        invariant files <= world.local && NoDuplicates(listing)
        invariant forall f :: f in listing <==> f in world.local && f !in files
        decreases |files|
      {
        var f :| f in files;
        files := files - {f};
        listing := listing + [f];
      }
    }

    /** Reads the index folder, in whatever order it lists its files. */
    method ListIndexes() returns (listing: seq<u32>)
      ensures Lists(world, listing)
    {
      listing := [];
      var files := world.files.Keys;
      while files != {}
        invariant files <= world.files.Keys
        invariant forall n: u32 :: n in listing <==> Index(n) in world.files && Index(n) !in files
        decreases |files|
      {
        var f :| f in files;
        files := files - {f};
        if f.Index? {
          listing := listing + [f.number];
        }
      }
    }

    /** A connection that can be sent to, if there is one now. */
    method GetPeerConnection() returns (connection: Option<nat>)
      requires Valid()
      modifies this
      ensures Valid() && Later(old(world), world) && LocalKept(old(world), world)
      ensures connection.Some? ==> IsIdle(world, connection.value)
      ensures LowIndexesHeld(old(world)) ==> LowIndexesHeld(world)
      ensures world == Turn(old(world), env.others(old(clock))) && clock == old(clock) + 2
      ensures connection == Offered(env, world, old(clock) + 1)
    {
      hide WorldOk, Runs, Run, Later, Held, Next, LowIndexesHeld;
      ghost var w := world;
      LetOthersAct(0);
      if LowIndexesHeld(w) {
        LowIndexesStay(w, world);
      }
      connection := env.offers(clock);
      clock := clock + 1;
      if connection.Some? && !IsIdle(world, connection.value) {
        connection := None;
      }
    }

    /** Sends all packfiles there are; when packing is over and none is left, packfiles are done. */
    method SendAvailablePackfiles(i: nat) returns (ok: bool, packfilesDone: bool, ghost listing: seq<FileInfo>)
      requires Valid() && IsIdle(world, i)
      modifies this
      ensures Valid() && Later(old(world), world) && (ok ==> IsIdle(world, i))
      ensures packfilesDone <==> ok && world.packed && world.local == {}
      ensures LowIndexesHeld(old(world)) ==> LowIndexesHeld(world)
      ensures ListsAll(listing, old(world.local))
      ensures ok <==> AllGoThrough(env, old(clock), old(world), i, listing)
      ensures ok ==> clock == old(clock) + 8 * |listing| + 1 &&
                     world == Turn(AfterFiles(env, old(clock), old(world), i, listing), env.others(clock - 1))
    {
      hide WorldOk, Runs, Run, Later, Held, Next, LowIndexesHeld, AllGoThrough, AfterFiles;
      ghost var w := world;
      LocalIsPackfiles(world);
      var files := ListPackfiles();
      listing := files;
      ok := SendPackfilesFromFolder(i, files);
      ghost var w1 := world;
      LetOthersAct(i);
      LaterTransitive(w, w1, world);
      if LowIndexesHeld(w) {
        LowIndexesStay(w, world);
      }
      packfilesDone := ok && world.packed && world.local == {};
    }

    /** Reads the index folder and sends what is new in it. */
    method SendAllIndexes(i: nat) returns (ok: bool, ghost ascends: bool, ghost listing: seq<u32>)
      requires Valid() && IsIdle(world, i) && world.packed && world.local == {}
      modifies this
      ensures Valid() && Later(old(world), world) && (ok ==> IsIdle(world, i))
      ensures world.packed && world.local == {}
      ensures ascends && LowIndexesHeld(old(world)) ==> LowIndexesHeld(world) && (ok ==> IndexesHeld(world))
      ensures ascends == NewAscend(listing, old(world.highestSentIndex)) && Lists(old(world), listing)
      ensures ok <==> AllGoThrough(env, old(clock), old(world), i, Unsent(old(world), listing))
      ensures ok ==> world == AfterFiles(env, old(clock), old(world), i, Unsent(old(world), listing))
    {
      hide WorldOk, Runs, Run, Held, Next, LowIndexesHeld, AllHeld, NewAscend, IndexesHeld, SentFrom, AllGoThrough,
           AfterFiles, Indexes;
      ghost var w := world;
      var numbers := ListIndexes();
      listing := numbers;
      ghost var sent;
      ascends := NewAscend(listing, world.highestSentIndex);
      ok, sent := SendIndex(i, numbers);
      if ok && AllHeld(world, listing) {
        ListedAreHeld(w, world, listing);
      }
    }

    method Sleep(connection: Option<nat>)
      requires Valid() && (connection.Some? ==> IsIdle(world, connection.value))
      modifies this
      ensures Valid() && Later(old(world), world) && LocalKept(old(world), world)
      ensures connection.Some? ==> IsIdle(world, connection.value)
      ensures LowIndexesHeld(old(world)) ==> LowIndexesHeld(world)
      ensures world == Turn(old(world), env.others(old(clock))) && clock == old(clock) + 1
    {
      hide WorldOk, Runs, Run, Later, Held, Next, LowIndexesHeld;
      ghost var w := world;
      var i := if connection.Some? then connection.value else 0;
      LetOthersAct(i);
      if LowIndexesHeld(w) {
        LowIndexesStay(w, world);
      }
    }

    /** One round of the sending loop: is there a connection, are there packfiles to send, then index files? */
    method SendRound(connection: Option<nat>, packfilesDone: bool)
      returns (next: Option<nat>, packfilesNext: bool, done: bool, ghost ascends: bool, ghost listings: Listings)
      requires Valid() && (connection.Some? ==> IsIdle(world, connection.value))
      requires packfilesDone ==> world.packed && world.local == {}
      modifies this
      ensures Valid() && Later(old(world), world) && (next.Some? ==> IsIdle(world, next.value))
      ensures packfilesNext ==> world.packed && world.local == {}
      ensures ascends && LowIndexesHeld(old(world)) ==> LowIndexesHeld(world) && (done ==> IndexesHeld(world))
      ensures done ==> packfilesNext
      ensures Round(env, Position(old(world), old(clock), connection, packfilesDone),
                    Position(world, clock, next, packfilesNext), listings, done)
    {
      hide WorldOk, Runs, Run, Later, Held, Next, LowIndexesHeld, IndexesHeld, LocalKept, ListsAll, Lists, NewAscend,
           AllGoThrough, AfterFiles, Unsent, Offered, Turn;
      ghost var w0 := world;
      LaterSame(world);
      next, packfilesNext, done, ascends, listings := connection, packfilesDone, false, true, Listings([], []);
      if next.None? {
        next := GetPeerConnection();
        StillPacked(w0, world);
      }
      ghost var w1 := world;
      if next.Some? {
        var news := Succeeds();
        var ok := true;
        if (news || world.packed) && !packfilesNext {
          ghost var packfiles;
          ok, packfilesNext, packfiles := SendAvailablePackfiles(next.value);
          LaterTransitive(w0, w1, world);
          listings := listings.(packfiles := packfiles);
        }
        ghost var w2 := world;
        if ok && packfilesNext {
          ghost var indexes;
          done, ascends, indexes := SendAllIndexes(next.value);
          LaterTransitive(w0, w2, world);
          listings := listings.(indexes := indexes);
          ok := done;
        }
        if !ok {
          next := None;
        }
        if done || !ok {
          return;
        }
      }
      ghost var w3 := world;
      Sleep(next);
      LaterTransitive(w0, w3, world);
      StillPacked(w3, world);
    }

    /** Any number of rounds of the sending loop. `ascending` says whether the index folder was listed in
        ascending order each time. When the loop is done, peers hold every packfile; and every index file too,
        if the listings ascended. It goes on for as long as its rounds do not end it. */
    method SendRounds(rounds: nat)
      returns (outcome: Outcome, ghost ascending: bool, ghost log: seq<Position>, ghost orders: seq<Listings>)
      requires Valid()
      modifies this
      ensures Valid() && Later(old(world), world)
      ensures outcome == SentAll ==>
                world.packed && world.local == {} && forall f :: f in world.files && f.Packfile? ==> Held(world, f)
      ensures outcome == SentAll && ascending && LowIndexesHeld(old(world)) ==>
                forall f :: f in world.files ==> Held(world, f)
      ensures AreRounds(env, log, orders, outcome == SentAll) && log[0] == Position(old(world), old(clock), None, false)
      ensures log[|orders|].world == world && log[|orders|].clock == clock
      ensures outcome == StillSending ==> |orders| == rounds
    {
      hide WorldOk, Runs, Run, Later, Held, Next, LowIndexesHeld, IndexesHeld, Round;
      ghost var w0 := world;
      LaterSame(world);
      ascending := true;
      var connection: Option<nat> := None;
      var packfilesDone := false;
      log, orders := [Position(world, clock, None, false)], [];
      for round := 0 to rounds
        invariant Valid() && Later(w0, world)
        invariant connection.Some? ==> IsIdle(world, connection.value)
        invariant ascending && LowIndexesHeld(w0) ==> LowIndexesHeld(world)
        invariant packfilesDone ==> world.packed && world.local == {}
        invariant |orders| == round && AreRounds(env, log, orders, false)
        invariant log[0] == Position(w0, old(clock), None, false)
        invariant log[round] == Position(world, clock, connection, packfilesDone)
      {
        ghost var w1 := world;
        var done;
        ghost var ascends, listings;
        connection, packfilesDone, done, ascends, listings := SendRound(connection, packfilesDone);
        LaterTransitive(w0, w1, world);
        ascending := ascending && ascends;
        ghost var here := Position(world, clock, connection, packfilesDone);
        OneMoreRound(env, log, orders, here, listings, done);
        log, orders := log + [here], orders + [listings];
        if done {
          EverythingHeld(world);
          return SentAll, ascending, log, orders;
        }
      }
      return StillSending, ascending, log, orders;
    }
  }
}
