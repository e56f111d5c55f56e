/** The course of sending: what becomes of a file, given what others do between the client's steps and which of
    its own operations fail. */
module Turns {
  import opened Wrappers
  import opened FileNames
  import opened Obfuscation
  import opened Sessions
  import opened Transfers
  import opened Exchanges

  /** What others do at each tick of the client's clock, whether an operation of its own then succeeds, and which
      session it is then offered. */
  datatype Surroundings = Surroundings(
    others: nat -> seq<Event>, outcomes: nat -> bool, offers: nat -> Option<nat>)

  predicate IsClientEvent(e: Event) {
    e.Send? || e.Listen? || e.Return? || e.Account? || e.Conclude? || e.Fail?
  }

  function Act(w: World, e: Event): World {
    if Enabled(w, e) then Next(w, e) else w
  }

  /** Others act as far as they can. */
  function Turn(w: World, events: seq<Event>): World
    decreases |events|
  {
    if events == [] then w
    else Turn(if IsClientEvent(events[0]) then w else Act(w, events[0]), events[1..])
  }

  // ----- One file -----

  /** The world in which the client looks for the acknowledgement of a file that it began to send at clock c. */
  function Listened(env: Surroundings, c: nat, w: World, i: nat, file: FileInfo): World {
    var sent := Act(Turn(w, env.others(c)), Send(i, file));
    Turn(Act(Turn(sent, env.others(c + 1)), Listen(i)), env.others(c + 3))
  }

  predicate IsHeardIn(w: World, i: nat) {
    i < |w.sessions| && w.sessions[i].sender.Heard?
  }

  /** The message went out, and the acknowledgement came while it was waited for. */
  predicate IsAcked(env: Surroundings, c: nat, w: World, i: nat, file: FileInfo) {
    env.outcomes(c + 2) && IsHeardIn(Listened(env, c, w, i, file), i)
  }

  /** After the acknowledgement: the bytes are counted and the sending concluded. */
  function Finished(env: Surroundings, c: nat, w: World, i: nat): World {
    Act(Turn(Act(Turn(w, env.others(c)), Account(i)), env.others(c + 2)), Conclude(i))
  }

  predicate GoesThrough(env: Surroundings, c: nat, w: World, i: nat, file: FileInfo) {
    IsAcked(env, c, w, i, file) && env.outcomes(c + 5) && env.outcomes(c + 7)
  }

  function AfterFile(env: Surroundings, c: nat, w: World, i: nat, file: FileInfo): World {
    Finished(env, c + 4, Act(Listened(env, c, w, i, file), Return(i)), i)
  }

  // ----- One file after the other -----

  predicate AllGoThrough(env: Surroundings, c: nat, w: World, i: nat, files: seq<FileInfo>)
    decreases |files|
  {
    files == [] ||
    (GoesThrough(env, c, w, i, files[0]) &&
     AllGoThrough(env, c + 8, AfterFile(env, c, w, i, files[0]), i, files[1..]))
  }

  function AfterFiles(env: Surroundings, c: nat, w: World, i: nat, files: seq<FileInfo>): World
    decreases |files|
  {
    if files == [] then w else AfterFiles(env, c + 8, AfterFile(env, c, w, i, files[0]), i, files[1..])
  }

  /** Sending `all` from w on has come to sending `rest` from w' on. */
  ghost predicate ComesDownTo(env: Surroundings, i: nat, c: nat, w: World, all: seq<FileInfo>,
                              c': nat, w': World, rest: seq<FileInfo>) {
    |rest| <= |all| && c' == c + 8 * (|all| - |rest|) &&
    (AllGoThrough(env, c, w, i, all) <==> AllGoThrough(env, c', w', i, rest)) &&
    AfterFiles(env, c, w, i, all) == AfterFiles(env, c', w', i, rest)
  }

  lemma {:induction false} NothingSent(env: Surroundings, i: nat, c: nat, w: World, all: seq<FileInfo>)
    ensures ComesDownTo(env, i, c, w, all, c, w, all)
  {
  }

  lemma {:induction false} OneLess(env: Surroundings, i: nat, c: nat, w: World, all: seq<FileInfo>,
                                   c': nat, w': World, rest: seq<FileInfo>)
    requires ComesDownTo(env, i, c, w, all, c', w', rest) && rest != []
    ensures !GoesThrough(env, c', w', i, rest[0]) ==> !AllGoThrough(env, c, w, i, all)
    ensures GoesThrough(env, c', w', i, rest[0]) ==>
              ComesDownTo(env, i, c, w, all, c' + 8, AfterFile(env, c', w', i, rest[0]), rest[1..])
  {
    hide GoesThrough, AfterFile;
  }

  lemma {:induction false} NoneLeft(env: Surroundings, i: nat, c: nat, w: World, all: seq<FileInfo>, c': nat, w': World)
    requires ComesDownTo(env, i, c, w, all, c', w', [])
    ensures AllGoThrough(env, c, w, i, all) && w' == AfterFiles(env, c, w, i, all) && c' == c + 8 * |all|
  {
  }

  // ----- Peers that answer at once -----

  lemma {:induction false} TurnIsRun(w: World, events: seq<Event>)
    requires Runs(w, events) && forall e :: e in events ==> !IsClientEvent(e)
    ensures Turn(w, events) == Run(w, events)
    decreases |events|
  {
    hide Next, Enabled, IsClientEvent;
    if events != [] {
      assert events[0] in events;
      TurnIsRun(Next(w, events[0]), events[1..]);
    }
  }

  /** Nothing fails, and the only thing that happens meanwhile is that message n of session i is delivered, stored
      and acknowledged while the client waits for that. */
  ghost predicate IsPrompt(env: Surroundings, c: nat, i: nat, n: nat) {
    env.others(c) == [] && env.others(c + 1) == [] && env.others(c + 3) == Delivery(i, n) &&
    env.others(c + 4) == [] && env.others(c + 6) == [] &&
    env.outcomes(c + 2) && env.outcomes(c + 5) && env.outcomes(c + 7)
  }

  lemma {:induction false} DeliveryIsOthers(i: nat, n: nat)
    ensures forall e :: e in Delivery(i, n) ==> !IsClientEvent(e)
  {
  }

  lemma {:induction false} RunIsActs(w: World, e: Event, rest: seq<Event>)
    requires Runs(w, [e] + rest)
    ensures Runs(Act(w, e), rest) && Run(w, [e] + rest) == Run(Act(w, e), rest)
  {
    hide Next, Enabled;
    assert ([e] + rest)[1..] == rest;
  }

  lemma {:induction false} PairIsActs(w: World, d: Event, e: Event)
    requires Runs(w, [d, e])
    ensures Run(w, [d, e]) == Act(Act(w, d), e)
  {
    hide Next, Enabled, Act;
    assert [d, e] == [d] + ([e] + []);
    RunIsActs(w, d, [e] + []);
    RunIsActs(Act(w, d), e, []);
  }

  lemma {:induction false} TripleIsActs(w: World, d: Event, e: Event, f: Event)
    requires Runs(w, [d, e, f])
    ensures Run(w, [d, e, f]) == Act(Act(Act(w, d), e), f)
  {
    hide Next, Enabled, Act;
    assert [d, e, f] == [d] + [e, f];
    RunIsActs(w, d, [e, f]);
    PairIsActs(Act(w, d), e, f);
  }

  lemma {:induction false} PromptIsListened(env: Surroundings, c: nat, w: World, i: nat, file: FileInfo, w2: World)
    requires i < |w.sessions| && IsPrompt(env, c, i, |w.sessions[i].signed|)
    requires w2 == Turn(Act(Act(w, Send(i, file)), Listen(i)), Delivery(i, |w.sessions[i].signed|))
    ensures Listened(env, c, w, i, file) == w2
  {
    hide Next, Enabled, Act;
  }

  lemma {:induction false} PromptIsFinished(env: Surroundings, c: nat, w: World, i: nat)
    requires env.others(c) == [] && env.others(c + 2) == []
    ensures Finished(env, c, w, i) == Act(Act(w, Account(i)), Conclude(i))
  {
    hide Next, Enabled, Act;
  }

  /** A file that can be sent to a prompt peer goes through, by exactly the exchange. */
  lemma {:induction false} PromptPeerAcknowledges(env: Surroundings, c: nat, w: World, i: nat, file: FileInfo)
    requires CanSend(w, i, file) && IsPrompt(env, c, i, |w.sessions[i].signed|)
    ensures GoesThrough(env, c, w, i, file) && Exchanged(w, AfterFile(env, c, w, i, file), i, file)
  {
    hide Runs, Run, Next, Enabled, Exchanged, Obfuscated, WouldStore, Act, Turn, Finished, Listened, Delivery;
    var n := |w.sessions[i].signed|;
    var w1 := Starts(w, i, file);
    PairIsActs(w, Send(i, file), Listen(i));
    var w2 := Delivers(w1, i, file);
    DeliveryIsOthers(i, n);
    TurnIsRun(w1, Delivery(i, n));
    PromptIsListened(env, c, w, i, file, w2);
    var w3 := Finishes(w2, i, file);
    TripleIsActs(w2, Return(i), Account(i), Conclude(i));
    PromptIsFinished(env, c + 4, Act(w2, Return(i)), i);
    Completes(w, w1, w2, w3, i, file);
  }

  /** These files can be sent one after the other, and are each answered at once. */
  ghost predicate AllPrompt(env: Surroundings, c: nat, w: World, i: nat, listing: seq<FileInfo>) {
    CanSendAll(w, i, listing) &&
    forall k :: 0 <= k < |listing| ==> IsPrompt(env, c + 8 * k, i, |w.sessions[i].signed| + k)
  }

  /** And so does any number of files, one after the other. */
  lemma {:induction false} PromptPeerGetsAll(env: Surroundings, c: nat, w: World, i: nat, listing: seq<FileInfo>)
    requires AllPrompt(env, c, w, i, listing)
    ensures AllGoThrough(env, c, w, i, listing)
    ensures AllExchanged(w, AfterFiles(env, c, w, i, listing), i, listing)
    decreases |listing|
  {
    hide GoesThrough, AfterFile, IsPrompt, CanSend;
    if listing != [] {
      hide CanSendAll, AllExchanged;
      var w1 := AfterFile(env, c, w, i, listing[0]);
      FirstCanBeSent(w, i, listing);
      assert IsPrompt(env, c + 8 * 0, i, |w.sessions[i].signed| + 0);
      PromptPeerAcknowledges(env, c, w, i, listing[0]);
      OthersCanBeSent(w, w1, i, listing);
      StillPrompt(env, c, w, w1, i, listing);
      hide Exchanged;
      PromptPeerGetsAll(env, c + 8, w1, i, listing[1..]);
      FirstThenOthers(w, w1, AfterFiles(env, c, w, i, listing), i, listing);
    }
  }

  lemma {:induction false} StillPrompt(env: Surroundings, c: nat, w: World, w1: World, i: nat, listing: seq<FileInfo>)
    requires listing != [] && Exchanged(w, w1, i, listing[0])
    requires forall k :: 0 <= k < |listing| ==> IsPrompt(env, c + 8 * k, i, |w.sessions[i].signed| + k)
    ensures forall k :: 0 <= k < |listing[1..]| ==> IsPrompt(env, c + 8 + 8 * k, i, |w1.sessions[i].signed| + k)
  {
    hide IsPrompt;
    forall k | 0 <= k < |listing[1..]|
      ensures IsPrompt(env, c + 8 + 8 * k, i, |w1.sessions[i].signed| + k)
    {
      assert IsPrompt(env, c + 8 * (k + 1), i, |w.sessions[i].signed| + (k + 1));
    }
  }
}
