/** The server's matching of storage requests as a transition system: every call of fulfill is a small
    program whose steps interleave with those of all others, with expiries and with failing awaits. */
module Matching {
  import opened ByteStrings
  import opened Primitives
  import opened Sums

  const MAX_BACKUP_STORAGE_REQUEST_SIZE: nat := 17_179_869_184 // 16 GiB

  datatype Request = Request(storageRequired: nat, clientId: ClientId)

  /** One row of the table of negotiations. */
  datatype Row = Row(source: ClientId, destination: ClientId, size: nat)

  datatype Amount = Amount(client: ClientId, size: nat)

  /** Where a call of fulfill is. `entry` is the request it has popped and holds. */
  datatype Phase =
    | Popping
    | NotifyingEntry(entry: Request)
    | NotifyingCaller(entry: Request)
    | SavingForward(entry: Request)
    | SavingBack(entry: Request)
    | Settling(entry: Request)
    | PushingRest(rest: Request)
    | PushingRemainder
    | Done(ok: bool)

  datatype Call = Call(client: ClientId, remaining: nat, phase: Phase) {
    function Match(entry: Request): nat {
      if remaining < entry.storageRequired then remaining else entry.storageRequired
    }
  }

  /** The shared queue, all calls so far, the table, and four logs: what clients asked for, what they were
      promised in match notifications, what was dropped, and promises never recorded in the table. */
  datatype State = State(
    queue: seq<Request>, calls: seq<Call>, table: seq<Row>,
    asked: seq<Amount>, promised: seq<Amount>, discarded: seq<Amount>, unrecorded: seq<Amount>, halves: seq<Row>)

  const INITIAL: State := State([], [], [], [], [], [], [], [])

  datatype Event =
    | Start(request: Request)
    | Step(call: nat, ok: bool) // ok: how the await of this step ends, where it has one
    | Expire(position: nat)

  predicate Enabled(s: State, e: Event) {
    match e
    case Start(_) => true
    case Step(i, _) => i < |s.calls| && !s.calls[i].phase.Done?
    case Expire(k) => k < |s.queue|
  }

  function SetCall(s: State, i: nat, c: Call): State
    requires i < |s.calls|
  {
    s.(calls := s.calls[i := c])
  }

  /** Gives up a call that holds an entry of which `paid` bytes are already promised. */
  function Abandon(s: State, i: nat, entry: Request, paid: nat): State
    requires i < |s.calls| && paid <= s.calls[i].Match(entry)
  {
    var c := s.calls[i];
    SetCall(s, i, c.(remaining := 0, phase := Done(false))).(
      discarded := s.discarded + [Amount(entry.clientId, entry.storageRequired - c.Match(entry)),
                                  Amount(c.client, c.remaining - paid)])
  }

  function AfterPop(s: State, i: nat): State
    requires i < |s.calls|
  {
    var c := s.calls[i];
    if s.queue == [] then SetCall(s, i, c.(phase := PushingRemainder))
    else
      var entry := s.queue[0];
      var popped := s.(queue := s.queue[1..]);
      if entry.clientId == c.client then
        popped.(discarded := s.discarded + [Amount(entry.clientId, entry.storageRequired)])
      else SetCall(popped, i, c.(phase := NotifyingEntry(entry)))
  }

  function AfterNotifyingEntry(s: State, i: nat, entry: Request, ok: bool): State
    requires i < |s.calls|
  {
    var c := s.calls[i];
    if ok then
      SetCall(s, i, c.(phase := NotifyingCaller(entry))).(promised := s.promised + [Amount(entry.clientId,
          c.Match(entry))])
    else
      SetCall(s, i, c.(phase := Popping)).(discarded := s.discarded + [Amount(entry.clientId, entry.storageRequired)])
  }

  function AfterNotifyingCaller(s: State, i: nat, entry: Request, ok: bool): State
    requires i < |s.calls|
  {
    var c := s.calls[i];
    if ok then
      SetCall(s, i, c.(phase := SavingForward(entry))).(promised := s.promised + [Amount(c.client, c.Match(entry))])
    else
      Abandon(s, i, entry, 0).(unrecorded := s.unrecorded + [Amount(entry.clientId, c.Match(entry))])
  }

  function AfterSavingForward(s: State, i: nat, entry: Request, ok: bool): State
    requires i < |s.calls|
  {
    var c := s.calls[i];
    if ok then
      SetCall(s, i, c.(phase := SavingBack(entry))).(table := s.table + [Row(c.client, entry.clientId, c.Match(entry))])
    else
      Abandon(s, i, entry, c.Match(entry)).(
        unrecorded := s.unrecorded + [Amount(entry.clientId, c.Match(entry)), Amount(c.client, c.Match(entry))])
  }

  function AfterSavingBack(s: State, i: nat, entry: Request, ok: bool): State
    requires i < |s.calls|
  {
    var c := s.calls[i];
    if ok then
      SetCall(s, i, c.(phase := Settling(entry))).(table := s.table + [Row(entry.clientId, c.client, c.Match(entry))])
    else
      Abandon(s, i, entry, c.Match(entry)).(
        unrecorded := s.unrecorded + [Amount(entry.clientId, c.Match(entry))],
        halves := s.halves + [Row(c.client, entry.clientId, c.Match(entry))])
  }

  function AfterSettling(s: State, i: nat, entry: Request): State
    requires i < |s.calls|
  {
    var c := s.calls[i];
    if c.remaining < entry.storageRequired then
      var rest := Request(entry.storageRequired - c.Match(entry), entry.clientId);
      SetCall(s, i, c.(remaining := 0, phase := PushingRest(rest)))
    else if c.remaining > entry.storageRequired then
      SetCall(s, i, c.(remaining := c.remaining - entry.storageRequired, phase := Popping))
    else SetCall(s, i, c.(remaining := 0, phase := Done(true)))
  }

  function AfterPushingRest(s: State, i: nat, rest: Request): State
    requires i < |s.calls|
  {
    SetCall(s, i, s.calls[i].(phase := Done(true))).(queue := s.queue + [rest])
  }

  function AfterPushingRemainder(s: State, i: nat): State
    requires i < |s.calls|
  {
    var c := s.calls[i];
    SetCall(s, i, c.(remaining := 0, phase := Done(true))).(queue := s.queue + [Request(c.remaining, c.client)])
  }

  function AfterStep(s: State, i: nat, ok: bool): State
    requires i < |s.calls| && !s.calls[i].phase.Done?
  {
    var c := s.calls[i];
    match c.phase
    case Popping => AfterPop(s, i)
    case NotifyingEntry(entry) => AfterNotifyingEntry(s, i, entry, ok)
    case NotifyingCaller(entry) => AfterNotifyingCaller(s, i, entry, ok)
    case SavingForward(entry) => AfterSavingForward(s, i, entry, ok)
    case SavingBack(entry) => AfterSavingBack(s, i, entry, ok)
    case Settling(entry) => AfterSettling(s, i, entry)
    case PushingRest(rest) => AfterPushingRest(s, i, rest)
    case PushingRemainder => AfterPushingRemainder(s, i)
  }

  function Next(s: State, e: Event): State
    requires Enabled(s, e)
  {
    match e
    case Start(r) =>
      if r.storageRequired == 0 then s.(calls := s.calls + [Call(r.clientId, 0, Done(true))])
      else if r.storageRequired > MAX_BACKUP_STORAGE_REQUEST_SIZE then
        s.(calls := s.calls + [Call(r.clientId, 0, Done(false))])
      else s.(calls := s.calls + [Call(r.clientId, r.storageRequired, Popping)],
              asked := s.asked + [Amount(r.clientId, r.storageRequired)])
    case Step(i, ok) => AfterStep(s, i, ok)
    case Expire(k) =>
      s.(queue := s.queue[..k] + s.queue[k + 1..],
         discarded := s.discarded + [Amount(s.queue[k].clientId, s.queue[k].storageRequired)])
  }

  // ----- Accounting for one client -----

  function Of(c: ClientId): Amount -> nat {
    (a: Amount) => if a.client == c then a.size else 0
  }

  function RequestedBy(c: ClientId): Request -> nat {
    (r: Request) => if r.clientId == c then r.storageRequired else 0
  }

  /** Bytes of this client that a call is responsible for and that are not promised yet. */
  function InFlight(k: Call, c: ClientId): nat {
    var own := if k.client == c then k.remaining else 0;
    match k.phase
    case Popping => own
    case PushingRemainder => own
    case NotifyingEntry(e) => own + RequestedBy(c)(e)
    case NotifyingCaller(e) => own + Of(c)(Amount(e.clientId, e.storageRequired - k.Match(e)))
    case SavingForward(e) => Of(c)(Amount(k.client, k.remaining - k.Match(e))) + Of(c)(Amount(e.clientId,
      e.storageRequired - k.Match(e)))
    case SavingBack(e) => Of(c)(Amount(k.client, k.remaining - k.Match(e))) + Of(c)(Amount(e.clientId,
      e.storageRequired - k.Match(e)))
    case Settling(e) => Of(c)(Amount(k.client, k.remaining - k.Match(e))) + Of(c)(Amount(e.clientId,
      e.storageRequired - k.Match(e)))
    case PushingRest(r) => RequestedBy(c)(r)
    case Done(_) => 0
  }

  function InFlightFor(c: ClientId): Call -> nat {
    (k: Call) => InFlight(k, c)
  }

  /** Everything a client asked for is promised, queued, in flight or discarded. */
  ghost predicate Balanced(s: State, c: ClientId) {
    Sum(s.asked, Of(c)) ==
    Sum(s.promised, Of(c)) + Sum(s.queue, RequestedBy(c)) + Sum(s.calls, InFlightFor(c)) + Sum(s.discarded, Of(c))
  }

  lemma {:induction false} AbandonDiscards(s: State, i: nat, e: Request, paid: nat, c: ClientId)
    requires i < |s.calls| && paid <= s.calls[i].Match(e)
    ensures Sum(Abandon(s, i, e, paid).discarded, Of(c)) ==
            Sum(s.discarded, Of(c)) + Of(c)(Amount(e.clientId, e.storageRequired - s.calls[i].Match(e)))
                                    + Of(c)(Amount(s.calls[i].client, s.calls[i].remaining - paid))
  {
    SumTwo(s.discarded, Amount(e.clientId, e.storageRequired - s.calls[i].Match(e)),
           Amount(s.calls[i].client, s.calls[i].remaining - paid), Of(c));
  }

  lemma {:induction false} CallSum(s: State, i: nat, k: Call, f: Call -> nat)
    requires i < |s.calls|
    ensures Sum(s.calls[i := k], f) + f(s.calls[i]) == Sum(s.calls, f) + f(k)
  {
    SumUpdate(s.calls, i, k, f);
  }

  lemma {:induction false} PopBalances(s: State, i: nat, c: ClientId)
    requires i < |s.calls| && s.calls[i].phase.Popping? && Balanced(s, c)
    ensures Balanced(AfterPop(s, i), c)
  {
    hide Sum;
    CallSum(s, i, AfterPop(s, i).calls[i], InFlightFor(c));
    assert s.calls[i := s.calls[i]] == s.calls;
    if s.queue != [] {
      SumHead(s.queue, RequestedBy(c));
      SumSnoc(s.discarded, Amount(s.queue[0].clientId, s.queue[0].storageRequired), Of(c));
    }
  }

  lemma {:induction false} NotifyEntryBalances(s: State, i: nat, e: Request, ok: bool, c: ClientId)
    requires i < |s.calls| && s.calls[i].phase == NotifyingEntry(e) && Balanced(s, c)
    ensures Balanced(AfterNotifyingEntry(s, i, e, ok), c)
  {
    hide Sum;
    CallSum(s, i, AfterNotifyingEntry(s, i, e, ok).calls[i], InFlightFor(c));
    SumSnoc(s.promised, Amount(e.clientId, s.calls[i].Match(e)), Of(c));
    SumSnoc(s.discarded, Amount(e.clientId, e.storageRequired), Of(c));
  }

  lemma {:induction false} NotifyCallerBalances(s: State, i: nat, e: Request, ok: bool, c: ClientId)
    requires i < |s.calls| && s.calls[i].phase == NotifyingCaller(e) && Balanced(s, c)
    ensures Balanced(AfterNotifyingCaller(s, i, e, ok), c)
  {
    hide Sum;
    CallSum(s, i, AfterNotifyingCaller(s, i, e, ok).calls[i], InFlightFor(c));
    SumSnoc(s.promised, Amount(s.calls[i].client, s.calls[i].Match(e)), Of(c));
    AbandonDiscards(s, i, e, 0, c);
  }

  lemma {:induction false} SaveBalances(s: State, i: nat, e: Request, ok: bool, c: ClientId)
    requires i < |s.calls| && Balanced(s, c)
    ensures s.calls[i].phase == SavingForward(e) ==> Balanced(AfterSavingForward(s, i, e, ok), c)
    ensures s.calls[i].phase == SavingBack(e) ==> Balanced(AfterSavingBack(s, i, e, ok), c)
  {
    hide Sum;
    CallSum(s, i, AfterSavingForward(s, i, e, ok).calls[i], InFlightFor(c));
    CallSum(s, i, AfterSavingBack(s, i, e, ok).calls[i], InFlightFor(c));
    AbandonDiscards(s, i, e, s.calls[i].Match(e), c);
  }

  lemma {:induction false} SettleBalances(s: State, i: nat, e: Request, c: ClientId)
    requires i < |s.calls| && s.calls[i].phase == Settling(e) && Balanced(s, c)
    ensures Balanced(AfterSettling(s, i, e), c)
  {
    hide Sum;
    CallSum(s, i, AfterSettling(s, i, e).calls[i], InFlightFor(c));
  }

  lemma {:induction false} StepKeepsBalance(s: State, i: nat, ok: bool, c: ClientId)
    requires i < |s.calls| && !s.calls[i].phase.Done? && Balanced(s, c)
    ensures Balanced(AfterStep(s, i, ok), c)
  {
    hide AfterPop, AfterNotifyingEntry, AfterNotifyingCaller, AfterSavingForward, AfterSavingBack, AfterSettling, Sum;
    var k := s.calls[i];
    match k.phase
    case Popping => PopBalances(s, i, c);
    case NotifyingEntry(e) => NotifyEntryBalances(s, i, e, ok, c);
    case NotifyingCaller(e) => NotifyCallerBalances(s, i, e, ok, c);
    case SavingForward(e) => SaveBalances(s, i, e, ok, c);
    case SavingBack(e) => SaveBalances(s, i, e, ok, c);
    case Settling(e) => SettleBalances(s, i, e, c);
    case PushingRest(r) =>
      CallSum(s, i, AfterStep(s, i, ok).calls[i], InFlightFor(c));
      SumSnoc(s.queue, r, RequestedBy(c));
    case PushingRemainder =>
      CallSum(s, i, AfterStep(s, i, ok).calls[i], InFlightFor(c));
      SumSnoc(s.queue, Request(k.remaining, k.client), RequestedBy(c));
  }

  lemma {:induction false} EventKeepsBalance(s: State, e: Event, c: ClientId)
    requires Enabled(s, e) && Balanced(s, c)
    ensures Balanced(Next(s, e), c)
  {
    hide AfterStep, Sum;
    match e
    case Start(r) =>
      SumSnoc(s.calls, Next(s, e).calls[|s.calls|], InFlightFor(c));
      SumSnoc(s.asked, Amount(r.clientId, r.storageRequired), Of(c));
    case Expire(k) =>
      SumSplit(s.queue, k, RequestedBy(c));
      SumSnoc(s.discarded, Amount(s.queue[k].clientId, s.queue[k].storageRequired), Of(c));
    case Step(i, ok) => StepKeepsBalance(s, i, ok, c);
  }

  // ----- Runs -----

  ghost predicate Runs(s: State, events: seq<Event>)
    decreases |events|
  {
    events == [] || (Enabled(s, events[0]) && Runs(Next(s, events[0]), events[1..]))
  }

  ghost function Run(s: State, events: seq<Event>): State
    requires Runs(s, events)
    decreases |events|
  {
    if events == [] then s else Run(Next(s, events[0]), events[1..])
  }

  /** Under every interleaving, and whatever expires or fails, each client's bytes are accounted for. */
  lemma {:induction false} EveryRunBalances(s: State, events: seq<Event>, c: ClientId)
    requires Runs(s, events) && Balanced(s, c)
    ensures Balanced(Run(s, events), c)
    decreases |events|
  {
    if events != [] {
      EventKeepsBalance(s, events[0], c);
      EveryRunBalances(Next(s, events[0]), events[1..], c);
    }
  }

  /** So no client is promised more than it asked for. */
  lemma {:induction false} NeverOverpromised(events: seq<Event>, c: ClientId)
    requires Runs(INITIAL, events)
    ensures Sum(Run(INITIAL, events).promised, Of(c)) <= Sum(Run(INITIAL, events).asked, Of(c))
  {
    EveryRunBalances(INITIAL, events, c);
  }

  // ----- Promises and the table -----

  function FromSource(c: ClientId): Row -> nat {
    (r: Row) => if r.source == c then r.size else 0
  }

  /** Promises a call has made to this client whose row is still to be written. */
  function Unwritten(k: Call, c: ClientId): nat {
    match k.phase
    case NotifyingCaller(e) => Of(c)(Amount(e.clientId, k.Match(e)))
    case SavingForward(e) => Of(c)(Amount(e.clientId, k.Match(e))) + Of(c)(Amount(k.client, k.Match(e)))
    case SavingBack(e) => Of(c)(Amount(e.clientId, k.Match(e)))
    case _ => 0
  }

  function UnwrittenFor(c: ClientId): Call -> nat {
    (k: Call) => Unwritten(k, c)
  }

  /** The table's rows for a client are its promises, save those still to be written and those that a
      failed call left unrecorded. */
  ghost predicate TableAgrees(s: State, c: ClientId) {
    Sum(s.promised, Of(c)) == Sum(s.table, FromSource(c)) + Sum(s.calls, UnwrittenFor(c)) + Sum(s.unrecorded, Of(c))
  }

  lemma {:induction false} NotifyRecords(s: State, i: nat, e: Request, ok: bool, c: ClientId)
    requires i < |s.calls| && TableAgrees(s, c)
    ensures s.calls[i].phase == NotifyingEntry(e) ==> TableAgrees(AfterNotifyingEntry(s, i, e, ok), c)
    ensures s.calls[i].phase == NotifyingCaller(e) ==> TableAgrees(AfterNotifyingCaller(s, i, e, ok), c)
  {
    hide Sum;
    var k := s.calls[i];
    CallSum(s, i, AfterNotifyingEntry(s, i, e, ok).calls[i], UnwrittenFor(c));
    CallSum(s, i, AfterNotifyingCaller(s, i, e, ok).calls[i], UnwrittenFor(c));
    SumSnoc(s.promised, Amount(e.clientId, k.Match(e)), Of(c));
    SumSnoc(s.promised, Amount(k.client, k.Match(e)), Of(c));
    SumSnoc(s.unrecorded, Amount(e.clientId, k.Match(e)), Of(c));
  }

  lemma {:induction false} SaveRecords(s: State, i: nat, e: Request, ok: bool, c: ClientId)
    requires i < |s.calls| && TableAgrees(s, c)
    ensures s.calls[i].phase == SavingForward(e) ==> TableAgrees(AfterSavingForward(s, i, e, ok), c)
    ensures s.calls[i].phase == SavingBack(e) ==> TableAgrees(AfterSavingBack(s, i, e, ok), c)
  {
    hide Sum;
    var k := s.calls[i];
    CallSum(s, i, AfterSavingForward(s, i, e, ok).calls[i], UnwrittenFor(c));
    CallSum(s, i, AfterSavingBack(s, i, e, ok).calls[i], UnwrittenFor(c));
    SumSnoc(s.table, Row(k.client, e.clientId, k.Match(e)), FromSource(c));
    SumSnoc(s.table, Row(e.clientId, k.client, k.Match(e)), FromSource(c));
    SumTwo(s.unrecorded, Amount(e.clientId, k.Match(e)), Amount(k.client, k.Match(e)), Of(c));
    SumSnoc(s.unrecorded, Amount(e.clientId, k.Match(e)), Of(c));
  }

  lemma {:induction false} EventKeepsTable(s: State, e: Event, c: ClientId)
    requires Enabled(s, e) && TableAgrees(s, c)
    ensures TableAgrees(Next(s, e), c)
  {
    hide AfterNotifyingEntry, AfterNotifyingCaller, AfterSavingForward, AfterSavingBack, Sum;
    match e
    case Start(r) => SumSnoc(s.calls, Next(s, e).calls[|s.calls|], UnwrittenFor(c));
    case Expire(k) =>
    case Step(i, ok) =>
      if s.calls[i].phase.NotifyingEntry? || s.calls[i].phase.NotifyingCaller? {
        NotifyRecords(s, i, s.calls[i].phase.entry, ok, c);
      } else if s.calls[i].phase.SavingForward? || s.calls[i].phase.SavingBack? {
        SaveRecords(s, i, s.calls[i].phase.entry, ok, c);
      } else {
        CallSum(s, i, AfterStep(s, i, ok).calls[i], UnwrittenFor(c));
        assert s.calls[i := s.calls[i]] == s.calls;
      }
  }

  function Between(a: ClientId, b: ClientId): Row -> nat {
    (r: Row) => if r.source == a && r.destination == b then r.size else 0
  }

  /** A forward row written by a call that has yet to write the row back. */
  function HalfRow(k: Call, a: ClientId, b: ClientId): nat {
    match k.phase
    case SavingBack(e) => Between(a, b)(Row(k.client, e.clientId, k.Match(e)))
    case _ => 0
  }

  function HalfOpen(a: ClientId, b: ClientId): Call -> nat {
    (k: Call) => HalfRow(k, a, b)
  }

  /** The table is symmetric, up to forward rows whose row back is pending or failed. */
  ghost predicate Symmetric(s: State, a: ClientId, b: ClientId) {
    Sum(s.table, Between(a, b)) + Sum(s.halves, Between(b, a)) + Sum(s.calls, HalfOpen(b, a)) ==
    Sum(s.table, Between(b, a)) + Sum(s.halves, Between(a, b)) + Sum(s.calls, HalfOpen(a, b))
  }

  lemma {:induction false} SaveKeepsSymmetry(s: State, i: nat, e: Request, ok: bool, a: ClientId, b: ClientId)
    requires i < |s.calls| && Symmetric(s, a, b)
    ensures s.calls[i].phase == SavingForward(e) ==> Symmetric(AfterSavingForward(s, i, e, ok), a, b)
    ensures s.calls[i].phase == SavingBack(e) ==> Symmetric(AfterSavingBack(s, i, e, ok), a, b)
  {
    hide Sum;
    SaveHalves(s, i, e, ok, a, b);
    SaveHalves(s, i, e, ok, b, a);
  }

  lemma {:induction false} SaveHalves(s: State, i: nat, e: Request, ok: bool, a: ClientId, b: ClientId)
    requires i < |s.calls|
    ensures var forward, back := Between(a, b)(Row(s.calls[i].client, e.clientId, s.calls[i].Match(e))),
                                 Between(a, b)(Row(e.clientId, s.calls[i].client, s.calls[i].Match(e)));
            var s1, s2 := AfterSavingForward(s, i, e, ok), AfterSavingBack(s, i, e, ok);
            Sum(s1.table, Between(a, b)) == Sum(s.table, Between(a, b)) + (if ok then forward else 0) &&
            Sum(s2.table, Between(a, b)) == Sum(s.table, Between(a, b)) + (if ok then back else 0) &&
            Sum(s2.halves, Between(a, b)) == Sum(s.halves, Between(a, b)) + (if ok then 0 else forward) &&
            s1.halves == s.halves &&
            Sum(s1.calls, HalfOpen(a, b)) + HalfRow(s.calls[i], a, b) ==
            Sum(s.calls, HalfOpen(a, b)) + (if ok then forward else 0) &&
            Sum(s2.calls, HalfOpen(a, b)) + HalfRow(s.calls[i], a, b) == Sum(s.calls, HalfOpen(a, b))
  {
    hide Sum;
    var k := s.calls[i];
    CallSum(s, i, AfterSavingForward(s, i, e, ok).calls[i], HalfOpen(a, b));
    CallSum(s, i, AfterSavingBack(s, i, e, ok).calls[i], HalfOpen(a, b));
    SumSnoc(s.table, Row(k.client, e.clientId, k.Match(e)), Between(a, b));
    SumSnoc(s.table, Row(e.clientId, k.client, k.Match(e)), Between(a, b));
    SumSnoc(s.halves, Row(k.client, e.clientId, k.Match(e)), Between(a, b));
  }

  /** Which transition a step is, by the phase that the call is in. */
  lemma {:induction false} StepByPhase(s: State, i: nat, ok: bool)
    requires i < |s.calls| && !s.calls[i].phase.Done?
    ensures var p := s.calls[i].phase;
            (p.Popping? ==> AfterStep(s, i, ok) == AfterPop(s, i)) &&
            (p.NotifyingEntry? ==> AfterStep(s, i, ok) == AfterNotifyingEntry(s, i, p.entry, ok)) &&
            (p.NotifyingCaller? ==> AfterStep(s, i, ok) == AfterNotifyingCaller(s, i, p.entry, ok)) &&
            (p.SavingForward? ==> AfterStep(s, i, ok) == AfterSavingForward(s, i, p.entry, ok)) &&
            (p.SavingBack? ==> AfterStep(s, i, ok) == AfterSavingBack(s, i, p.entry, ok)) &&
            (p.Settling? ==> AfterStep(s, i, ok) == AfterSettling(s, i, p.entry)) &&
            (p.PushingRest? ==> AfterStep(s, i, ok) == AfterPushingRest(s, i, p.rest)) &&
            (p.PushingRemainder? ==> AfterStep(s, i, ok) == AfterPushingRemainder(s, i))
  {
    hide AfterPop, AfterNotifyingEntry, AfterNotifyingCaller, AfterSavingForward, AfterSavingBack, AfterSettling,
         AfterPushingRest, AfterPushingRemainder;
  }

  lemma {:induction false} OtherStepsWriteNothing(s: State, i: nat, ok: bool)
    requires i < |s.calls| && !s.calls[i].phase.Done? && !s.calls[i].phase.SavingForward? &&
             !s.calls[i].phase.SavingBack?
    ensures var s' := AfterStep(s, i, ok);
            s'.table == s.table && s'.halves == s.halves &&
            |s'.calls| == |s.calls| && s'.calls == s.calls[i := s'.calls[i]] && !s'.calls[i].phase.SavingBack?
  {
    assert s.calls[i := s.calls[i]] == s.calls;
  }

  lemma {:induction false} EventKeepsSymmetry(s: State, e: Event, a: ClientId, b: ClientId)
    requires Enabled(s, e) && Symmetric(s, a, b)
    ensures Symmetric(Next(s, e), a, b)
  {
    hide AfterStep, Sum;
    match e
    case Start(r) =>
      SumSnoc(s.calls, Next(s, e).calls[|s.calls|], HalfOpen(a, b));
      SumSnoc(s.calls, Next(s, e).calls[|s.calls|], HalfOpen(b, a));
    case Expire(k) =>
    case Step(i, ok) =>
      if s.calls[i].phase.SavingForward? || s.calls[i].phase.SavingBack? {
        StepByPhase(s, i, ok);
        SaveKeepsSymmetry(s, i, s.calls[i].phase.entry, ok, a, b);
      } else {
        OtherStepsWriteNothing(s, i, ok);
        CallSum(s, i, AfterStep(s, i, ok).calls[i], HalfOpen(a, b));
        CallSum(s, i, AfterStep(s, i, ok).calls[i], HalfOpen(b, a));
      }
  }

  /** In every run the table never records more for a client than it was promised, and is symmetric once no
      call is half-way and no write back has failed. */
  lemma {:induction false} EveryRunTable(s: State, events: seq<Event>, a: ClientId, b: ClientId)
    requires Runs(s, events) && TableAgrees(s, a) && Symmetric(s, a, b)
    ensures TableAgrees(Run(s, events), a) && Symmetric(Run(s, events), a, b)
    ensures Sum(Run(s, events).table, FromSource(a)) <= Sum(Run(s, events).promised, Of(a))
    decreases |events|
  {
    if events != [] {
      EventKeepsTable(s, events[0], a);
      EventKeepsSymmetry(s, events[0], a, b);
      EveryRunTable(Next(s, events[0]), events[1..], a, b);
    }
  }

  /** The matches whose second write fails in a run, as the rows that only the first write left. */
  ghost function FailedSecondWrites(s: State, events: seq<Event>): seq<Row>
    requires Runs(s, events)
    decreases |events|
  {
    if events == [] then []
    else FailedSecondWrite(s, events[0]) + FailedSecondWrites(Next(s, events[0]), events[1..])
  }

  function FailedSecondWrite(s: State, e: Event): seq<Row>
    requires Enabled(s, e)
  {
    if e.Step? && s.calls[e.call].phase.SavingBack? && !e.ok then
      var c := s.calls[e.call];
      [Row(c.client, c.phase.entry.clientId, c.Match(c.phase.entry))]
    else []
  }

  lemma {:induction false} HalvesAreFailedWrites(s: State, events: seq<Event>)
    requires Runs(s, events)
    ensures Run(s, events).halves == s.halves + FailedSecondWrites(s, events)
    decreases |events|
  {
    if events == [] {
      assert s.halves + [] == s.halves;
    } else {
      var e := events[0];
      OneHalf(s, e);
      HalvesAreFailedWrites(Next(s, e), events[1..]);
      Assoc(s.halves, FailedSecondWrite(s, e), FailedSecondWrites(Next(s, e), events[1..]));
    }
  }

  lemma {:induction false} OneHalf(s: State, e: Event)
    requires Enabled(s, e)
    ensures Next(s, e).halves == s.halves + FailedSecondWrite(s, e)
  {
    assert s.halves + [] == s.halves;
  }

  lemma {:induction false} NoneHalfOpen(calls: seq<Call>, a: ClientId, b: ClientId)
    requires forall k :: k in calls ==> !k.phase.SavingBack?
    ensures Sum(calls, HalfOpen(a, b)) == 0
  {
    if calls != [] {
      assert calls[0] in calls;
      NoneHalfOpen(calls[1..], a, b);
    }
  }

  /** When no call is between its two writes, two clients have the same amount from each other if and only if
      the second writes that failed for the one and for the other come to the same. */
  lemma {:induction false} SymmetricUnlessWritesFailed(events: seq<Event>, a: ClientId, b: ClientId)
    requires Runs(INITIAL, events)
    requires forall k :: k in Run(INITIAL, events).calls ==> !k.phase.SavingBack?
    ensures Sum(Run(INITIAL, events).table, Between(a, b)) == Sum(Run(INITIAL, events).table, Between(b, a)) <==>
            Sum(FailedSecondWrites(INITIAL, events), Between(a, b)) ==
            Sum(FailedSecondWrites(INITIAL, events), Between(b, a))
  {
    hide Next, Enabled, Sum, Runs, Run, FailedSecondWrites;
    InitialIsBalanced(a, b);
    EveryRunTable(INITIAL, events, a, b);
    HalvesAreFailedWrites(INITIAL, events);
    assert [] + FailedSecondWrites(INITIAL, events) == FailedSecondWrites(INITIAL, events);
    NoneHalfOpen(Run(INITIAL, events).calls, a, b);
    NoneHalfOpen(Run(INITIAL, events).calls, b, a);
  }

  lemma {:induction false} InitialIsBalanced(a: ClientId, b: ClientId)
    ensures TableAgrees(INITIAL, a) && Symmetric(INITIAL, a, b) && Balanced(INITIAL, a) && Sane(INITIAL)
  {
  }

  lemma {:induction false} RunStep(s: State, e: Event, rest: seq<Event>)
    requires Enabled(s, e) && Runs(Next(s, e), rest)
    ensures Runs(s, [e] + rest) && Run(s, [e] + rest) == Run(Next(s, e), rest)
  {
    hide Next, Enabled;
    assert ([e] + rest)[1..] == rest;
  }

  /** b queues 5 bytes: its call finds the queue empty and pushes its request. */
  function QueueFive(b: ClientId): seq<Event> {
    [Start(Request(5, b)), Step(0, true), Step(0, true)]
  }

  /** a is matched with them: pop, both notifications, the first write, and the second, which fails. */
  function MatchFiveAndFail(a: ClientId): seq<Event> {
    [Start(Request(5, a)), Step(1, true), Step(1, true), Step(1, true), Step(1, true), Step(1, false)]
  }

  lemma {:induction false} FiveQueued(a: ClientId, b: ClientId)
    ensures Runs(INITIAL, QueueFive(b))
    ensures var s := Run(INITIAL, QueueFive(b));
            s.queue == [Request(5, b)] && s.calls == [Call(b, 0, Done(true))] && s.table == [] && s.halves == []
  {
    var s1 := Next(INITIAL, Start(Request(5, b)));
    var s2 := Next(s1, Step(0, true));
    RunStep(s2, Step(0, true), []);
    RunStep(s1, Step(0, true), [Step(0, true)]);
    RunStep(INITIAL, Start(Request(5, b)), [Step(0, true)] + [Step(0, true)]);
    assert QueueFive(b) == [Start(Request(5, b))] + ([Step(0, true)] + [Step(0, true)]);
  }

  lemma {:induction false} SecondWriteFails(s: State, a: ClientId, b: ClientId)
    requires a != b && s.queue == [Request(5, b)] && s.calls == [Call(b, 0, Done(true))] && s.table == [] &&
             s.halves == []
    ensures Runs(s, MatchFiveAndFail(a))
    ensures var s' := Run(s, MatchFiveAndFail(a));
            s'.calls == [Call(b, 0, Done(true)), Call(a, 0, Done(false))] && s'.table == [Row(a, b, 5)] &&
            s'.halves == [Row(a, b, 5)]
  {
    var entry := Request(5, b);
    var s1 := Next(s, Start(Request(5, a)));
    assert s1.calls[1] == Call(a, 5, Popping);
    var s2 := AfterPop(s1, 1);
    assert s2.calls[1] == Call(a, 5, NotifyingEntry(entry));
    var s3 := AfterNotifyingEntry(s2, 1, entry, true);
    var s4 := AfterNotifyingCaller(s3, 1, entry, true);
    var s5 := AfterSavingForward(s4, 1, entry, true);
    var s6 := AfterSavingBack(s5, 1, entry, false);
    assert s6.calls == [Call(b, 0, Done(true)), Call(a, 0, Done(false))];
    hide AfterPop, AfterNotifyingEntry, AfterNotifyingCaller, AfterSavingForward, AfterSavingBack;
    var e4, e3, e2, e1 := [Step(1, true)], [Step(1, true)], [Step(1, true)], [Step(1, true)];
    var last := [Step(1, false)];
    RunStep(s5, Step(1, false), []);
    RunStep(s4, Step(1, true), last);
    RunStep(s3, Step(1, true), e4 + last);
    RunStep(s2, Step(1, true), e3 + (e4 + last));
    RunStep(s1, Step(1, true), e2 + (e3 + (e4 + last)));
    RunStep(s, Start(Request(5, a)), e1 + (e2 + (e3 + (e4 + last))));
    assert MatchFiveAndFail(a) == [Start(Request(5, a))] + (e1 + (e2 + (e3 + (e4 + last))));
  }

  lemma {:induction false} RunAppend(s: State, events: seq<Event>, more: seq<Event>)
    requires Runs(s, events) && Runs(Run(s, events), more)
    ensures Runs(s, events + more) && Run(s, events + more) == Run(Run(s, events), more)
    decreases |events|
  {
    hide Next, Enabled;
    if events == [] {
      assert events + more == more;
    } else {
      assert (events + more)[1..] == events[1..] + more;
      RunAppend(Next(s, events[0]), events[1..], more);
    }
  }

  /** A run that leaves the table asymmetric: the rows of a and b, with no call in flight, are one row from a
      to b and none back. */
  lemma {:induction false} FailedSecondWriteLeavesHalf(a: ClientId, b: ClientId)
    requires a != b
    ensures Runs(INITIAL, QueueFive(b) + MatchFiveAndFail(a))
    ensures var s := Run(INITIAL, QueueFive(b) + MatchFiveAndFail(a));
            s.table == [Row(a, b, 5)] && (forall k :: k in s.calls ==> k.phase.Done?) &&
            Sum(s.table, Between(a, b)) == 5 && Sum(s.table, Between(b, a)) == 0
  {
    hide Next, Enabled, Runs, Run;
    FiveQueued(a, b);
    SecondWriteFails(Run(INITIAL, QueueFive(b)), a, b);
    RunAppend(INITIAL, QueueFive(b), MatchFiveAndFail(a));
    SumOne(Row(a, b, 5), Between(a, b));
    SumOne(Row(a, b, 5), Between(b, a));
  }

  // ----- Sizes and self-matches -----

  predicate InRange(r: Request) { 1 <= r.storageRequired <= MAX_BACKUP_STORAGE_REQUEST_SIZE }

  predicate CallSane(k: Call) {
    match k.phase
    case Popping => 1 <= k.remaining <= MAX_BACKUP_STORAGE_REQUEST_SIZE
    case PushingRemainder => 1 <= k.remaining <= MAX_BACKUP_STORAGE_REQUEST_SIZE
    case PushingRest(r) => InRange(r)
    case Done(_) => true
    case _ =>
      1 <= k.remaining <= MAX_BACKUP_STORAGE_REQUEST_SIZE &&
      InRange(k.phase.entry) && k.phase.entry.clientId != k.client
  }

  /** Every queued request is between 1 byte and 16 GiB; no call holds its own client's request; no row is
      empty or joins a client to itself. */
  ghost predicate Sane(s: State) {
    (forall r :: r in s.queue ==> InRange(r)) && (forall k :: k in s.calls ==> CallSane(k)) &&
    forall r :: r in s.table ==> r.source != r.destination && 1 <= r.size <= MAX_BACKUP_STORAGE_REQUEST_SIZE
  }

  lemma {:induction false} SetCallKeepsSane(s: State, i: nat, k: Call)
    requires Sane(s) && i < |s.calls| && CallSane(k)
    ensures Sane(SetCall(s, i, k))
  {
  }

  /** A step pops the head, pushes one sane request, or leaves the queue; it changes only its own call. */
  lemma {:induction false} StepIsSane(s: State, i: nat, ok: bool)
    requires i < |s.calls| && !s.calls[i].phase.Done? && Sane(s)
    ensures var s' := AfterStep(s, i, ok);
            |s'.calls| == |s.calls| && s'.calls == s.calls[i := s'.calls[i]] && CallSane(s'.calls[i])
    ensures var s' := AfterStep(s, i, ok);
            s'.queue == s.queue || (s.queue != [] && s'.queue == s.queue[1..]) ||
            (exists r :: InRange(r) && s'.queue == s.queue + [r])
  {
    assert s.calls[i] in s.calls;
    assert s.calls[i := s.calls[i]] == s.calls;
    if s.queue != [] {
      assert s.queue[0] in s.queue;
    }
  }

  /** A step writes at most one row, of a positive size and between two clients. */
  lemma {:induction false} StepWritesSane(s: State, i: nat, ok: bool)
    requires i < |s.calls| && !s.calls[i].phase.Done? && Sane(s)
    ensures var s' := AfterStep(s, i, ok);
            s'.table == s.table ||
            (exists r: Row ::
               r.source != r.destination && 1 <= r.size <= MAX_BACKUP_STORAGE_REQUEST_SIZE && s'.table == s.table + [r])
  {
    assert s.calls[i] in s.calls;
  }

  lemma {:induction false} StepKeepsSane(s: State, i: nat, ok: bool)
    requires i < |s.calls| && !s.calls[i].phase.Done? && Sane(s)
    ensures Sane(AfterStep(s, i, ok))
  {
    hide AfterStep, CallSane;
    var s' := AfterStep(s, i, ok);
    StepIsSane(s, i, ok);
    StepWritesSane(s, i, ok);
    SetCallKeepsSane(s, i, s'.calls[i]);
  }

  lemma {:induction false} EventKeepsSane(s: State, e: Event)
    requires Enabled(s, e) && Sane(s)
    ensures Sane(Next(s, e))
  {
    hide AfterStep;
    if e.Step? {
      StepKeepsSane(s, e.call, e.ok);
    }
  }

  lemma {:induction false} EveryRunSane(s: State, events: seq<Event>)
    requires Runs(s, events) && Sane(s)
    ensures Sane(Run(s, events))
    decreases |events|
  {
    if events != [] {
      EventKeepsSane(s, events[0]);
      EveryRunSane(Next(s, events[0]), events[1..]);
    }
  }

  // ----- How long the queue can get -----

  function Active(): Call -> nat {
    (k: Call) => if k.phase.Done? then 0 else 1
  }

  /** Calls that hold a popped entry or are bound to push one. */
  function Committed(): Call -> nat {
    (k: Call) => if k.phase.Done? || k.phase.Popping? then 0 else 1
  }

  /** At most `limit` calls are ever in flight together. */
  ghost predicate BoundedRun(s: State, events: seq<Event>, limit: nat)
    requires Runs(s, events)
    decreases |events|
  {
    Sum(s.calls, Active()) <= limit && (events != [] ==> BoundedRun(Next(s, events[0]), events[1..], limit))
  }

  lemma {:induction false} CommittedAreActive(calls: seq<Call>)
    ensures Sum(calls, Committed()) <= Sum(calls, Active())
  {
    if calls != [] {
      CommittedAreActive(calls[1..]);
    }
  }

  /** A step moves a request between queue and call; only finding the queue empty commits a call anew. */
  lemma {:induction false} StepMovesRequests(s: State, i: nat, ok: bool)
    requires i < |s.calls| && !s.calls[i].phase.Done?
    ensures var s' := AfterStep(s, i, ok);
            |s'.calls| == |s.calls| && s'.calls == s.calls[i := s'.calls[i]] &&
            (|s'.queue| + Committed()(s'.calls[i]) <= |s.queue| + Committed()(s.calls[i]) ||
             (s'.queue == [] && s.queue == []))
  {
    assert s.calls[i := s.calls[i]] == s.calls;
  }

  lemma {:induction false} EventKeepsQueueShort(s: State, e: Event, limit: nat)
    requires Enabled(s, e)
    requires |s.queue| + Sum(s.calls, Committed()) <= limit && Sum(Next(s, e).calls, Active()) <= limit
    ensures |Next(s, e).queue| + Sum(Next(s, e).calls, Committed()) <= limit
  {
    hide AfterStep, Sum;
    match e
    case Start(r) => SumSnoc(s.calls, Next(s, e).calls[|s.calls|], Committed());
    case Expire(k) =>
    case Step(i, ok) =>
      StepMovesRequests(s, i, ok);
      CallSum(s, i, Next(s, e).calls[i], Committed());
      CommittedAreActive(Next(s, e).calls);
  }

  /** With at most `limit` calls in flight, queued requests, held entries and pending pushes together never
      exceed `limit`; serial use leaves at most one request in the queue. */
  lemma {:induction false} QueueStaysShort(s: State, events: seq<Event>, limit: nat)
    requires Runs(s, events) && BoundedRun(s, events, limit)
    requires |s.queue| + Sum(s.calls, Committed()) <= limit
    ensures |Run(s, events).queue| + Sum(Run(s, events).calls, Committed()) <= limit
    decreases |events|
  {
    if events != [] {
      EventKeepsQueueShort(s, events[0], limit);
      QueueStaysShort(Next(s, events[0]), events[1..], limit);
    }
  }
}
