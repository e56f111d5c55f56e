/** One call of fulfill, as the loop that the server runs, and the greedy matching it amounts to. */
module BackupRequests {
  import opened Wrappers
  import opened ByteStrings
  import opened Primitives
  import opened Matching
  import opened Sums

  datatype FulfillError = BadRequest | ClientNotConnected | DatabaseError

  lemma {:induction false} RunSnoc(s: State, events: seq<Event>, e: Event)
    requires Runs(s, events) && Enabled(Run(s, events), e)
    ensures Runs(s, events + [e]) && Run(s, events + [e]) == Next(Run(s, events), e)
    decreases |events|
  {
    hide Next, Enabled;
    if events == [] {
      assert events + [e] == [e];
      assert Runs(Next(s, e), []);
    } else {
      assert (events + [e])[1..] == events[1..] + [e];
      RunSnoc(Next(s, events[0]), events[1..], e);
    }
  }

  /** The events of one call that nothing interleaves with. */
  ghost predicate OfCall(events: seq<Event>, request: Request, call: nat) {
    events != [] && events[0] == Start(request) &&
    forall i :: 1 <= i < |events| ==> events[i].Step? && events[i].call == call
  }

  /** From `start` to `world` in steps of this call alone. */
  ghost predicate Alone(start: State, events: seq<Event>, request: Request, call: nat, world: State) {
    OfCall(events, request, call) && Runs(start, events) && world == Run(start, events)
  }

  function BothWays(a: ClientId, b: ClientId, size: nat): seq<Row> {
    [Row(a, b, size), Row(b, a, size)]
  }

  /** First come, first matched, with every await succeeding: the queue afterwards and the rows written. */
  function Greedy(queue: seq<Request>, me: ClientId, remaining: nat): (seq<Request>, seq<Row>) {
    if queue == [] then ([Request(remaining, me)], [])
    else
      var entry, later := queue[0], queue[1..];
      if entry.clientId == me then Greedy(later, me, remaining)
      else
        var m := Min(remaining, entry.storageRequired);
        var rows := BothWays(me, entry.clientId, m);
        if remaining < entry.storageRequired then (later + [Request(entry.storageRequired - m, entry.clientId)], rows)
        else if remaining > entry.storageRequired then
          var (queue', rows') := Greedy(later, me, remaining - entry.storageRequired);
          (queue', rows + rows')
        else (later, rows)
  }

  /** What a step does to its own call, the queue and the table. */
  function Effect(c: Call, queue: seq<Request>, table: seq<Row>, ok: bool): (Call, seq<Request>, seq<Row>)
    requires !c.phase.Done?
  {
    var s := AfterStep(State(queue, [c], table, [], [], [], [], []), 0, ok);
    (s.calls[0], s.queue, s.table)
  }

  /** A step depends on nothing else. */
  lemma {:induction false} StepEffect(s: State, i: nat, ok: bool)
    requires i < |s.calls| && !s.calls[i].phase.Done?
    ensures var s' := AfterStep(s, i, ok);
            |s'.calls| == |s.calls| && (s'.calls[i], s'.queue, s'.table) == Effect(s.calls[i], s.queue, s.table, ok)
  {
  }

  lemma {:induction false} PoppingEffect(c: Call, queue: seq<Request>, table: seq<Row>, ok: bool)
    requires c.phase.Popping?
    ensures Effect(c, queue, table, ok) ==
            if queue == [] then (c.(phase := PushingRemainder), queue, table)
            else (if queue[0].clientId == c.client then c else c.(phase := NotifyingEntry(queue[0])), queue[1..], table)
  {
  }

  lemma {:induction false} NotifyingEffect(c: Call, e: Request, queue: seq<Request>, table: seq<Row>, ok: bool)
    ensures c.phase == NotifyingEntry(e) ==>
              Effect(c, queue, table, ok) == (c.(phase := if ok then NotifyingCaller(e) else Popping), queue, table)
    ensures c.phase == NotifyingCaller(e) ==>
              Effect(c, queue, table, ok) ==
              (if ok then c.(phase := SavingForward(e)) else c.(remaining := 0, phase := Done(false)), queue, table)
  {
  }

  lemma {:induction false} SavingEffect(c: Call, e: Request, queue: seq<Request>, table: seq<Row>, ok: bool)
    ensures c.phase == SavingForward(e) ==>
              Effect(c, queue, table, ok) ==
              if ok then (c.(phase := SavingBack(e)), queue, table + [Row(c.client, e.clientId, c.Match(e))])
              else (c.(remaining := 0, phase := Done(false)), queue, table)
    ensures c.phase == SavingBack(e) ==>
              Effect(c, queue, table, ok) ==
              if ok then (c.(phase := Settling(e)), queue, table + [Row(e.clientId, c.client, c.Match(e))])
              else (c.(remaining := 0, phase := Done(false)), queue, table)
  {
  }

  lemma {:induction false} PushingEffect(c: Call, queue: seq<Request>, table: seq<Row>, ok: bool)
    requires !c.phase.Done?
    ensures c.phase.PushingRest? ==>
              Effect(c, queue, table, ok) == (c.(phase := Done(true)), queue + [c.phase.rest], table)
    ensures c.phase.PushingRemainder? ==>
              Effect(c, queue, table, ok) == (c.(remaining := 0, phase := Done(true)),
                                              queue + [Request(c.remaining, c.client)], table)
  {
  }

  lemma {:induction false} SettlingEffect(c: Call, e: Request, queue: seq<Request>, table: seq<Row>, ok: bool)
    requires c.phase == Settling(e)
    ensures Effect(c, queue, table, ok) ==
            (if c.remaining < e.storageRequired then
               c.(remaining := 0, phase := PushingRest(Request(e.storageRequired - c.remaining, e.clientId)))
             else if c.remaining > e.storageRequired then
               c.(remaining := c.remaining - e.storageRequired, phase := Popping)
             else c.(remaining := 0, phase := Done(true)), queue, table)
  {
  }

  /** Any two clients are given the same amount by each other. */
  ghost predicate Mutual(rows: seq<Row>) {
    forall a, b :: Sum(rows, Between(a, b)) == Sum(rows, Between(b, a))
  }

  lemma {:induction false} NoRowsAreMutual()
    ensures Mutual([])
  {
  }

  lemma {:induction false} MutualGrows(rows: seq<Row>, me: ClientId, other: ClientId, size: nat)
    requires Mutual(rows)
    ensures Mutual(rows + BothWays(me, other, size))
  {
    hide Sum;
    forall a, b
      ensures Sum(rows + BothWays(me, other, size), Between(a, b)) ==
              Sum(rows + BothWays(me, other, size), Between(b, a))
    {
      SumTwo(rows, Row(me, other, size), Row(other, me, size), Between(a, b));
      SumTwo(rows, Row(me, other, size), Row(other, me, size), Between(b, a));
    }
  }

  /** How the exchange with one popped entry ends. */
  datatype Negotiation = Unreachable | Failed(error: FulfillError) | Matched

  /** What the server awaits: a client being told that it is matched with another, or a row being saved. */
  datatype Attempt = Notify(client: ClientId, destination: ClientId, size: nat) | Save(row: Row)

  /** The attempts of matching two clients, as far as they go when the n-th await and those after it end like
      this: the one whose request was queued is told first. */
  function AttemptsOf(outcomes: nat -> bool, n: nat, me: ClientId, other: ClientId, size: nat): seq<Attempt> {
    [Notify(other, me, size)] +
    if !outcomes(n) then []
    else
      [Notify(me, other, size)] +
      if !outcomes(n + 1) then []
      else [Save(Row(me, other, size))] + if !outcomes(n + 2) then [] else [Save(Row(other, me, size))]
  }

  function NegotiationOf(outcomes: nat -> bool, n: nat): Negotiation {
    if !outcomes(n) then Unreachable
    else if !outcomes(n + 1) then Failed(ClientNotConnected)
    else if outcomes(n + 2) && outcomes(n + 3) then Matched
    else Failed(DatabaseError)
  }

  /** The rows saved: both, one of them, or none. */
  function RowsOf(outcomes: nat -> bool, n: nat, me: ClientId, other: ClientId, size: nat): seq<Row> {
    if !outcomes(n) || !outcomes(n + 1) || !outcomes(n + 2) then []
    else if !outcomes(n + 3) then [Row(me, other, size)]
    else BothWays(me, other, size)
  }

  /** What a call comes to: the queue afterwards, the rows it saves, what it attempts, and its result. */
  datatype Served = Served(
    queue: seq<Request>, rows: seq<Row>, attempts: seq<Attempt>, result: Result<(), FulfillError>)

  /** Matching a request when the n-th await and those after it end like this. */
  function Serve(outcomes: nat -> bool, n: nat, queue: seq<Request>, me: ClientId, remaining: nat): Served
    decreases |queue|
  {
    if queue == [] then Served([Request(remaining, me)], [], [], Ok(()))
    else
      var entry, later := queue[0], queue[1..];
      if entry.clientId == me then Serve(outcomes, n, later, me, remaining)
      else
        var size := Min(remaining, entry.storageRequired);
        var rows := RowsOf(outcomes, n, me, entry.clientId, size);
        var attempts := AttemptsOf(outcomes, n, me, entry.clientId, size);
        match NegotiationOf(outcomes, n)
        case Unreachable => Preceded(rows, attempts, Serve(outcomes, n + |attempts|, later, me, remaining))
        case Failed(error) => Served(later, rows, attempts, Err(error))
        case Matched =>
          if remaining < entry.storageRequired then
            Served(later + [Request(entry.storageRequired - remaining, entry.clientId)], rows, attempts, Ok(()))
          else if remaining > entry.storageRequired then
            Preceded(rows, attempts,
                     Serve(outcomes, n + |attempts|, later, me, remaining - entry.storageRequired))
          else Served(later, rows, attempts, Ok(()))
  }

  function Preceded(rows: seq<Row>, attempts: seq<Attempt>, rest: Served): Served {
    rest.(rows := rows + rest.rows, attempts := attempts + rest.attempts)
  }

  lemma {:induction false} PrecededTwice(rows: seq<Row>, attempts: seq<Attempt>, rows': seq<Row>,
                                         attempts': seq<Attempt>, rest: Served)
    ensures Preceded(rows, attempts, Preceded(rows', attempts', rest)) ==
            Preceded(rows + rows', attempts + attempts', rest)
    ensures Preceded([], [], rest) == rest
  {
    Assoc(rows, rows', rest.rows);
    Assoc(attempts, attempts', rest.attempts);
    assert [] + rest.rows == rest.rows && [] + rest.attempts == rest.attempts;
  }

  /** Both clients of the row were told of it, one right after the other. */
  ghost predicate WasNotified(outcomes: nat -> bool, n: nat, attempts: seq<Attempt>, me: ClientId, row: Row) {
    (row.source == me || row.destination == me) &&
    var other := if row.source == me then row.destination else row.source;
    exists k :: 0 <= k < |attempts| - 1 &&
                attempts[k] == Notify(other, me, row.size) && outcomes(n + k) &&
                attempts[k + 1] == Notify(me, other, row.size) && outcomes(n + k + 1)
  }

  lemma {:induction false} NotifiedAmong(outcomes: nat -> bool, n: nat, first: seq<Attempt>, rest: seq<Attempt>,
                                         me: ClientId, row: Row)
    requires WasNotified(outcomes, n, first, me, row) || WasNotified(outcomes, n + |first|, rest, me, row)
    ensures WasNotified(outcomes, n, first + rest, me, row)
  {
    var all, other := first + rest, if row.source == me then row.destination else row.source;
    if WasNotified(outcomes, n, first, me, row) {
      var k :| 0 <= k < |first| - 1 && first[k] == Notify(other, me, row.size) && outcomes(n + k) &&
               first[k + 1] == Notify(me, other, row.size) && outcomes(n + k + 1);
      assert all[k] == first[k] && all[k + 1] == first[k + 1];
    } else {
      var k :| 0 <= k < |rest| - 1 && rest[k] == Notify(other, me, row.size) && outcomes(n + |first| + k) &&
               rest[k + 1] == Notify(me, other, row.size) && outcomes(n + |first| + k + 1);
      assert all[|first| + k] == rest[k] && all[|first| + k + 1] == rest[k + 1];
    }
  }

  lemma {:induction false} RowOfOne(outcomes: nat -> bool, n: nat, me: ClientId, other: ClientId, size: nat, row: Row)
    requires row in RowsOf(outcomes, n, me, other, size)
    ensures WasNotified(outcomes, n, AttemptsOf(outcomes, n, me, other, size), me, row)
  {
    var attempts := AttemptsOf(outcomes, n, me, other, size);
    assert attempts[0] == Notify(other, me, size) && attempts[0 + 1] == Notify(me, other, size);
  }

  /** A row is saved only after both of its clients could be told of the match, with this very size. */
  lemma {:induction false} RowsAreNotified(outcomes: nat -> bool, n: nat, queue: seq<Request>, me: ClientId,
                                           remaining: nat, row: Row)
    requires row in Serve(outcomes, n, queue, me, remaining).rows
    ensures WasNotified(outcomes, n, Serve(outcomes, n, queue, me, remaining).attempts, me, row)
    decreases |queue|
  {
    if queue != [] {
      var entry, later := queue[0], queue[1..];
      ServeStep(outcomes, n, queue, me, remaining);
      if entry.clientId == me {
        RowsAreNotified(outcomes, n, later, me, remaining, row);
      } else {
        var size := Min(remaining, entry.storageRequired);
        var rows, first := RowsOf(outcomes, n, me, entry.clientId, size),
                           AttemptsOf(outcomes, n, me, entry.clientId, size);
        var matched := NegotiationOf(outcomes, n).Matched?;
        var remaining' := if matched then remaining - size else remaining;
        var rest := Serve(outcomes, n + |first|, later, me, remaining');
        hide Serve, RowsOf, AttemptsOf, NegotiationOf, WasNotified;
        if row in rows {
          RowOfOne(outcomes, n, me, entry.clientId, size, row);
          NotifiedAmong(outcomes, n, first, [], me, row);
        } else {
          RowsAreNotified(outcomes, n + |first|, later, me, remaining', row);
        }
        NotifiedAmong(outcomes, n, first, rest.attempts, me, row);
      }
    }
  }

  /** Without failing awaits it is the greedy matching. */
  lemma {:induction false} ServeIsGreedy(outcomes: nat -> bool, n: nat, queue: seq<Request>, me: ClientId,
                                         remaining: nat)
    requires forall i :: n <= i ==> outcomes(i)
    ensures var served := Serve(outcomes, n, queue, me, remaining);
            served.result == Ok(()) && (served.queue, served.rows) == Greedy(queue, me, remaining)
    decreases |queue|
  {
    if queue != [] {
      var entry, later := queue[0], queue[1..];
      if entry.clientId == me {
        ServeIsGreedy(outcomes, n, later, me, remaining);
      } else if remaining > entry.storageRequired {
        var first := AttemptsOf(outcomes, n, me, entry.clientId, entry.storageRequired);
        ServeIsGreedy(outcomes, n + |first|, later, me, remaining - entry.storageRequired);
      }
    }
  }

  /** The requests of clients that can be told, and the caller's own. */
  function Reachable(queue: seq<Request>, me: ClientId, connected: ClientId -> bool): seq<Request> {
    if queue == [] then []
    else (if queue[0].clientId == me || connected(queue[0].clientId) then [queue[0]] else []) +
         Reachable(queue[1..], me, connected)
  }

  lemma {:induction false} ReachableSnoc(queue: seq<Request>, r: Request, me: ClientId, connected: ClientId -> bool)
    ensures Reachable(queue + [r], me, connected) ==
            Reachable(queue, me, connected) + if r.clientId == me || connected(r.clientId) then [r] else []
  {
    if queue == [] {
      assert queue + [r] == [r];
      assert Reachable([r][1..], me, connected) == [];
    } else {
      assert (queue + [r])[1..] == queue[1..] + [r] && (queue + [r])[0] == queue[0];
      ReachableSnoc(queue[1..], r, me, connected);
      Assoc(if queue[0].clientId == me || connected(queue[0].clientId) then [queue[0]] else [],
            Reachable(queue[1..], me, connected), if r.clientId == me || connected(r.clientId) then [r] else []);
    }
  }

  /** Telling a client whose request was queued succeeds just when it is connected; nothing else fails. */
  ghost predicate OnlyClientsMissing(outcomes: nat -> bool, n: nat, attempts: seq<Attempt>, me: ClientId,
                                     connected: ClientId -> bool)
  {
    forall k :: 0 <= k < |attempts| ==>
      (outcomes(n + k) <==> !attempts[k].Notify? || attempts[k].client == me || connected(attempts[k].client))
  }

  lemma {:induction false} MissingLater(outcomes: nat -> bool, n: nat, first: seq<Attempt>, rest: seq<Attempt>,
                                        me: ClientId, connected: ClientId -> bool)
    requires OnlyClientsMissing(outcomes, n, first + rest, me, connected)
    ensures OnlyClientsMissing(outcomes, n, first, me, connected)
    ensures OnlyClientsMissing(outcomes, n + |first|, rest, me, connected)
  {
    forall k | 0 <= k < |first|
      ensures first[k] == (first + rest)[k]
    {
    }
    forall k | 0 <= k < |rest|
      ensures outcomes(n + |first| + k) <==>
              !rest[k].Notify? || rest[k].client == me || connected(rest[k].client)
    {
      assert (first + rest)[|first| + k] == rest[k];
      assert n + (|first| + k) == n + |first| + k;
    }
  }

  /** What the greedy matching does with the first entry. */
  lemma {:induction false} GreedyHead(entry: Request, later: seq<Request>, me: ClientId, remaining: nat)
    ensures var greedy, size := Greedy([entry] + later, me, remaining), Min(remaining, entry.storageRequired);
            if entry.clientId == me then greedy == Greedy(later, me, remaining)
            else if remaining < entry.storageRequired then
              greedy == (later + [Request(entry.storageRequired - remaining, entry.clientId)],
                         BothWays(me, entry.clientId, size))
            else if remaining > entry.storageRequired then
              greedy == (Greedy(later, me, remaining - entry.storageRequired).0,
                         BothWays(me, entry.clientId, size) + Greedy(later, me, remaining - entry.storageRequired).1)
            else greedy == (later, BothWays(me, entry.clientId, size))
  {
    assert ([entry] + later)[1..] == later;
  }

  lemma {:induction false} ReachableHead(queue: seq<Request>, me: ClientId, connected: ClientId -> bool)
    requires queue != []
    ensures Reachable(queue, me, connected) ==
            if queue[0].clientId == me || connected(queue[0].clientId)
            then [queue[0]] + Reachable(queue[1..], me, connected) else Reachable(queue[1..], me, connected)
    ensures forall r: Request :: r.clientId == me ==> Reachable([r], me, connected) == [r]
  {
  }

  /** It is the greedy matching of what is reachable, as far as the queue goes. */
  ghost predicate GreedyOnReachable(served: Served, queue: seq<Request>, me: ClientId, remaining: nat,
                                    connected: ClientId -> bool)
  {
    served.result == Ok(()) &&
    (Reachable(served.queue, me, connected), served.rows) == Greedy(Reachable(queue, me, connected), me, remaining)
  }

  /** An entry that is matched or cannot be told, and then the rest of the queue. */
  lemma {:induction false} ServesAndGoesOn(outcomes: nat -> bool, n: nat, queue: seq<Request>, me: ClientId,
                                           remaining: nat, remaining': nat, connected: ClientId -> bool)
    requires queue != [] && queue[0].clientId != me
    requires NegotiationOf(outcomes, n) == if connected(queue[0].clientId) then Matched else Unreachable
    requires if connected(queue[0].clientId) then remaining == remaining' + queue[0].storageRequired && remaining' > 0
             else remaining' == remaining
    requires var entry, size := queue[0], Min(remaining, queue[0].storageRequired);
             var first := AttemptsOf(outcomes, n, me, entry.clientId, size);
             GreedyOnReachable(Serve(outcomes, n + |first|, queue[1..], me, remaining'), queue[1..], me, remaining',
                               connected)
    ensures GreedyOnReachable(Serve(outcomes, n, queue, me, remaining), queue, me, remaining, connected)
  {
    var entry, later, size := queue[0], queue[1..], Min(remaining, queue[0].storageRequired);
    var rest := Serve(outcomes, n + |AttemptsOf(outcomes, n, me, entry.clientId, size)|, later, me, remaining');
    ReachableHead(queue, me, connected);
    GreedyHead(entry, Reachable(later, me, connected), me, remaining);
    ServeStep(outcomes, n, queue, me, remaining);
    RowsOfOne(outcomes, n, me, entry.clientId, size);
    hide Serve, Greedy, AttemptsOf, RowsOf, NegotiationOf, Reachable, BothWays;
    assert [] + rest.rows == rest.rows;
  }

  /** An entry that covers what is left. */
  lemma {:induction false} ServesAndEnds(outcomes: nat -> bool, n: nat, queue: seq<Request>, me: ClientId,
                                         remaining: nat, connected: ClientId -> bool)
    requires queue != [] && queue[0].clientId != me && remaining <= queue[0].storageRequired
    requires NegotiationOf(outcomes, n).Matched? && connected(queue[0].clientId)
    ensures GreedyOnReachable(Serve(outcomes, n, queue, me, remaining), queue, me, remaining, connected)
  {
    var entry, later := queue[0], queue[1..];
    ReachableHead(queue, me, connected);
    GreedyHead(entry, Reachable(later, me, connected), me, remaining);
    ReachableSnoc(later, Request(entry.storageRequired - remaining, entry.clientId), me, connected);
    ServeStep(outcomes, n, queue, me, remaining);
    RowsOfOne(outcomes, n, me, entry.clientId, remaining);
    hide Serve, Greedy, AttemptsOf, RowsOf, NegotiationOf, Reachable, BothWays;
    assert BothWays(me, entry.clientId, remaining) + [] == BothWays(me, entry.clientId, remaining);
  }

  /** If nothing fails but telling clients that are not connected, the call succeeds, and it is the greedy
      matching of the queue without their requests. */
  lemma {:induction false} ServesTheConnected(outcomes: nat -> bool, n: nat, queue: seq<Request>, me: ClientId,
                                              remaining: nat, connected: ClientId -> bool)
    requires OnlyClientsMissing(outcomes, n, Serve(outcomes, n, queue, me, remaining).attempts, me, connected)
    ensures GreedyOnReachable(Serve(outcomes, n, queue, me, remaining), queue, me, remaining, connected)
    decreases |queue|
  {
    if queue == [] {
      ReachableHead([Request(remaining, me)], me, connected);
    } else if queue[0].clientId == me {
      ServesTheConnected(outcomes, n, queue[1..], me, remaining, connected);
      ReachableHead(queue, me, connected);
      GreedyHead(queue[0], Reachable(queue[1..], me, connected), me, remaining);
    } else {
      var entry, later := queue[0], queue[1..];
      ServesOne(outcomes, n, queue, me, remaining, connected);
      ServeStep(outcomes, n, queue, me, remaining);
      hide Serve, Greedy, AttemptsOf, RowsOf, NegotiationOf, Reachable, GreedyOnReachable, OnlyClientsMissing;
      if connected(entry.clientId) && remaining <= entry.storageRequired {
        ServesAndEnds(outcomes, n, queue, me, remaining, connected);
      } else {
        var first := AttemptsOf(outcomes, n, me, entry.clientId, Min(remaining, entry.storageRequired));
        var remaining' := if connected(entry.clientId) then remaining - entry.storageRequired else remaining;
        var rest := Serve(outcomes, n + |first|, later, me, remaining');
        MissingLater(outcomes, n, first, rest.attempts, me, connected);
        ServesTheConnected(outcomes, n + |first|, later, me, remaining', connected);
        ServesAndGoesOn(outcomes, n, queue, me, remaining, remaining', connected);
      }
    }
  }

  lemma {:induction false} RowsOfOne(outcomes: nat -> bool, n: nat, me: ClientId, other: ClientId, size: nat)
    ensures NegotiationOf(outcomes, n).Unreachable? ==> RowsOf(outcomes, n, me, other, size) == []
    ensures NegotiationOf(outcomes, n).Matched? ==> RowsOf(outcomes, n, me, other, size) == BothWays(me, other, size)
  {
  }

  /** The exchange with the first entry. */
  lemma {:induction false} ServesOne(outcomes: nat -> bool, n: nat, queue: seq<Request>, me: ClientId,
                                     remaining: nat, connected: ClientId -> bool)
    requires queue != [] && queue[0].clientId != me
    requires OnlyClientsMissing(outcomes, n, Serve(outcomes, n, queue, me, remaining).attempts, me, connected)
    ensures NegotiationOf(outcomes, n) == if connected(queue[0].clientId) then Matched else Unreachable
  {
    var entry := queue[0];
    var first := AttemptsOf(outcomes, n, me, entry.clientId, Min(remaining, entry.storageRequired));
    var all := Serve(outcomes, n, queue, me, remaining).attempts;
    assert forall k :: 0 <= k < |first| ==> k < |all| && all[k] == first[k];
    assert all[0] == Notify(entry.clientId, me, Min(remaining, entry.storageRequired));
    if outcomes(n) {
      assert all[1].client == me && outcomes(n + 1);
      assert all[2].Save? && outcomes(n + 2);
      assert all[3].Save? && outcomes(n + 3);
    }
  }

  lemma {:induction false} ServeIsMutual(outcomes: nat -> bool, n: nat, queue: seq<Request>, me: ClientId,
                                         remaining: nat)
    ensures var served := Serve(outcomes, n, queue, me, remaining); served.result.Ok? ==> Mutual(served.rows)
    decreases |queue|
  {
    hide Mutual, AttemptsOf;
    NoRowsAreMutual();
    if queue != [] {
      var entry, later := queue[0], queue[1..];
      if entry.clientId == me {
        ServeIsMutual(outcomes, n, later, me, remaining);
      } else {
        var size := Min(remaining, entry.storageRequired);
        var first := AttemptsOf(outcomes, n, me, entry.clientId, size);
        MutualGrows([], me, entry.clientId, size);
        assert [] + BothWays(me, entry.clientId, size) == BothWays(me, entry.clientId, size);
        if NegotiationOf(outcomes, n).Unreachable? {
          ServeIsMutual(outcomes, n + |first|, later, me, remaining);
          assert [] + Serve(outcomes, n + |first|, later, me, remaining).rows ==
                 Serve(outcomes, n + |first|, later, me, remaining).rows;
        } else if remaining > entry.storageRequired {
          var rest := Serve(outcomes, n + |first|, later, me, remaining - entry.storageRequired);
          ServeIsMutual(outcomes, n + |first|, later, me, remaining - entry.storageRequired);
          if rest.result.Ok? {
            MutualAppend(BothWays(me, entry.clientId, size), rest.rows);
          }
        }
      }
    }
  }

  lemma {:induction false} MutualAppend(rows: seq<Row>, more: seq<Row>)
    requires Mutual(rows) && Mutual(more)
    ensures Mutual(rows + more)
  {
    hide Sum;
    forall a, b
      ensures Sum(rows + more, Between(a, b)) == Sum(rows + more, Between(b, a))
    {
      SumAppend(rows, more, Between(a, b));
      SumAppend(rows, more, Between(b, a));
    }
  }

  lemma {:induction false} CallStarts(request: Request, call: nat)
    ensures OfCall([] + [Start(request)], request, call)
  {
  }

  lemma {:induction false} EmptyRun(s: State)
    ensures Runs(s, []) && Run(s, []) == s
  {
  }

  /** The steps of the transition system that two awaits stand for. */
  function TwoSteps(call: nat, first: bool, second: bool): seq<Event> {
    [Step(call, first)] + if first then [Step(call, second)] else []
  }

  class Server {
    var queue: seq<Request>
    var table: seq<Row>

    /** Whether the n-th await succeeds, and what was awaited so far. */
    const outcomes: nat -> bool
    var attempts: seq<Attempt>

    /** The transition system's state that this server is in. */
    ghost var world: State

    ghost predicate Valid()
      reads this
    {
      world.queue == queue && world.table == table
    }

    /** All awaits from the n-th on succeed. */
    ghost predicate AllSucceed(n: nat) {
      forall i :: n <= i ==> outcomes(i)
    }

    lemma {:induction false} SucceedAll(n: nat)
      requires AllSucceed(n)
      ensures forall i :: n <= i ==> outcomes(i)
    {
    }

    constructor (outcomes: nat -> bool)
      ensures Valid() && world == INITIAL && attempts == [] && this.outcomes == outcomes
    {
      queue, table, attempts := [], [], [];
      this.outcomes := outcomes;
      world := INITIAL;
    }

    method Await(attempt: Attempt) returns (ok: bool)
      modifies this`attempts
      ensures attempts == old(attempts) + [attempt] && ok == outcomes(|old(attempts)|)
    {
      ok := outcomes(|attempts|);
      attempts := attempts + [attempt];
    }

    /** Records one step of a call in the transition system. */
    ghost method Advance(request: Request, call: nat, ok: bool, start: State,
                         events0: seq<Event>) returns (events: seq<Event>)
      requires Alone(start, events0, request, call, world)
      requires call < |world.calls| && !world.calls[call].phase.Done?
      modifies this`world
      ensures events == events0 + [Step(call, ok)] && Alone(start, events, request, call, world)
      ensures |world.calls| == |old(world).calls|
      ensures (world.calls[call], world.queue, world.table) ==
              Effect(old(world).calls[call], old(world).queue, old(world).table, ok)
    {
      hide AfterStep, Run, Runs, Effect;
      StepEffect(world, call, ok);
      RunSnoc(start, events0, Step(call, ok));
      events := events0 + [Step(call, ok)];
      world := Next(world, Step(call, ok));
    }

    /** Notifies the client of a popped entry and then the requesting one. The entry is unreachable exactly if
        the first notification fails; the call fails exactly if the first succeeds and the second does not. */
    method NotifyBoth(request: Request, destination: Request, storageMatch: nat, ghost call: nat, ghost start: State,
                      ghost events0: seq<Event>)
        returns (outcome: Negotiation, ghost events: seq<Event>)
      requires Valid() && Alone(start, events0, request, call, world)
      requires call < |world.calls| && world.calls[call].phase == NotifyingEntry(destination)
      modifies this`attempts, this`world
      ensures Valid() && Alone(start, events, request, call, world)
      ensures var n := |old(attempts)|;
              outcome == (if !outcomes(n) then Unreachable
                          else if !outcomes(n + 1) then Failed(ClientNotConnected) else Matched) &&
              attempts ==
                old(attempts) + [Notify(destination.clientId, request.clientId, storageMatch)] +
                (if outcomes(n) then [Notify(request.clientId, destination.clientId, storageMatch)] else []) &&
              events == events0 + TwoSteps(call, outcomes(n), outcomes(n + 1))
      ensures |world.calls| == |old(world.calls)|
      ensures outcome == Matched ==> world.calls[call] == old(world.calls[call]).(phase := SavingForward(destination))
      ensures outcome == Unreachable ==> world.calls[call] == old(world.calls[call]).(phase := Popping)
      ensures outcome.Failed? ==> world.calls[call].phase == Done(false)
    {
      hide Alone, Effect;
      var ok := Await(Notify(destination.clientId, request.clientId, storageMatch));
      NotifyingEffect(world.calls[call], destination, queue, table, ok);
      events := Advance(request, call, ok, start, events0);
      if !ok {
        return Unreachable, events;
      }
      ok := Await(Notify(request.clientId, destination.clientId, storageMatch));
      NotifyingEffect(world.calls[call], destination, queue, table, ok);
      events := Advance(request, call, ok, start, events);
      if !ok {
        return Failed(ClientNotConnected), events;
      }
      return Matched, events;
    }

    /** Saves a match in the table, for both clients. The second row is attempted exactly if the first is saved. */
    method SaveBoth(request: Request, destination: Request, storageMatch: nat, ghost call: nat, ghost start: State,
                    ghost events0: seq<Event>)
        returns (ok: bool, ghost events: seq<Event>)
      requires Valid() && Alone(start, events0, request, call, world)
      requires call < |world.calls| && world.calls[call].client == request.clientId
      requires world.calls[call].phase == SavingForward(destination) &&
               storageMatch == world.calls[call].Match(destination)
      modifies this`table, this`attempts, this`world
      ensures Valid() && Alone(start, events, request, call, world)
      ensures var n, forward, back := |old(attempts)|, Row(request.clientId, destination.clientId, storageMatch),
                                      Row(destination.clientId, request.clientId, storageMatch);
              ok == (outcomes(n) && outcomes(n + 1)) &&
              attempts == old(attempts) + [Save(forward)] + (if outcomes(n) then [Save(back)] else []) &&
              table == old(table) + (if outcomes(n) then [forward] else []) + (if ok then [back] else []) &&
              events == events0 + TwoSteps(call, outcomes(n), outcomes(n + 1))
      ensures |world.calls| == |old(world.calls)|
      ensures ok ==> world.calls[call] == old(world.calls[call]).(phase := Settling(destination))
      ensures !ok ==> world.calls[call].phase == Done(false)
    {
      hide Alone, Effect;
      ok := Await(Save(Row(request.clientId, destination.clientId, storageMatch)));
      SavingEffect(world.calls[call], destination, queue, table, ok);
      events := Advance(request, call, ok, start, events0);
      if !ok {
        return;
      }
      table := table + [Row(request.clientId, destination.clientId, storageMatch)];
      ok := Await(Save(Row(destination.clientId, request.clientId, storageMatch)));
      SavingEffect(world.calls[call], destination, queue, table, ok);
      events := Advance(request, call, ok, start, events);
      if !ok {
        return;
      }
      table := table + [Row(destination.clientId, request.clientId, storageMatch)];
    }

    /** Notifies both clients of a match and saves it in both directions. An unreachable entry is dropped;
        any later failure ends the call. */
    method Negotiate(request: Request, destination: Request, storageMatch: nat, ghost call: nat, ghost start: State,
                     ghost events0: seq<Event>)
        returns (outcome: Negotiation, ghost events: seq<Event>)
      requires Valid() && Alone(start, events0, request, call, world)
      requires call < |world.calls| && world.calls[call].client == request.clientId
      requires world.calls[call].phase == NotifyingEntry(destination) &&
               storageMatch == world.calls[call].Match(destination)
      modifies this`table, this`attempts, this`world
      ensures Valid() && Alone(start, events, request, call, world)
      ensures var n, me, other := |old(attempts)|, request.clientId, destination.clientId;
              outcome == NegotiationOf(outcomes, n) &&
              attempts == old(attempts) + AttemptsOf(outcomes, n, me, other, storageMatch) &&
              table == old(table) + RowsOf(outcomes, n, me, other, storageMatch)
      ensures |world.calls| == |old(world.calls)|
      ensures outcome == Matched ==> world.calls[call] == old(world.calls[call]).(phase := Settling(destination))
      ensures outcome == Unreachable ==> world.calls[call] == old(world.calls[call]).(phase := Popping)
      ensures outcome.Failed? ==> world.calls[call].phase == Done(false)
    {
      hide Alone, TwoSteps;
      outcome, events := NotifyBoth(request, destination, storageMatch, call, start, events0);
      if outcome == Matched {
        var ok;
        ok, events := SaveBoth(request, destination, storageMatch, call, start, events);
        if !ok {
          outcome := Failed(DatabaseError);
        }
      }
    }

    /** Puts the rest of a larger entry back at the end of the queue, or reports what is still to be matched. */
    method Settle(request: Request, destination: Request, storageToFulfill: nat, ghost call: nat, ghost start: State,
                  ghost events0: seq<Event>)
        returns (rest: nat, ghost events: seq<Event>)
      requires Valid() && Alone(start, events0, request, call, world)
      requires call < |world.calls| &&
               world.calls[call] == Call(request.clientId, storageToFulfill, Settling(destination))
      modifies this`queue, this`world
      ensures Valid() && Alone(start, events, request, call, world)
      ensures |world.calls| == |old(world.calls)|
      ensures rest ==
              if storageToFulfill > destination.storageRequired then storageToFulfill - destination.storageRequired
              else 0
      ensures world.calls[call] ==
              if rest > 0 then Call(request.clientId, rest, Popping) else Call(request.clientId, 0, Done(true))
      ensures queue == if storageToFulfill < destination.storageRequired
                       then old(queue) + [Request(destination.storageRequired - storageToFulfill,
                                                  destination.clientId)] else old(queue)
    {
      hide Alone, Effect;
      SettlingEffect(world.calls[call], destination, queue, table, true);
      events := Advance(request, call, true, start, events0);
      if storageToFulfill < destination.storageRequired {
        PushingEffect(world.calls[call], queue, table, true);
        queue := queue + [Request(destination.storageRequired - storageToFulfill, destination.clientId)];
        events := Advance(request, call, true, start, events);
        return 0, events;
      }
      return storageToFulfill - destination.storageRequired, events;
    }

    /** Pops queued requests and matches them until the request is used up or the queue is empty. */
    method MatchQueued(request: Request, ghost id: nat, ghost start: State, ghost events0: seq<Event>)
        returns (r: Result<(), FulfillError>, ghost events: seq<Event>)
      requires Valid() && Alone(start, events0, request, id, world)
      requires request.storageRequired >= 1
      requires |world.calls| == id + 1 && world.calls[id] == Call(request.clientId, request.storageRequired, Popping)
      modifies this
      ensures Valid() && Alone(start, events, request, id, world)
      ensures |world.calls| == id + 1 && world.calls[id].phase == Done(r.Ok?)
      ensures var served := Serve(outcomes, |old(attempts)|, old(queue), request.clientId, request.storageRequired);
              r == served.result && queue == served.queue && table == old(table) + served.rows &&
              attempts == old(attempts) + served.attempts
    {
      hide Alone, Serve, Effect, BothWays, AttemptsOf, RowsOf, NegotiationOf, Preceded;
      events := events0;
      var storageToFulfill: nat := request.storageRequired;
      ghost var me := request.clientId;
      ghost var served := Serve(outcomes, |attempts|, queue, me, storageToFulfill);
      ghost var rows: seq<Row>, tried: seq<Attempt> := [], [];
      PrecededTwice([], [], [], [], served);
      while queue != []
        invariant Valid()
        invariant Alone(start, events, request, id, world)
        invariant |world.calls| == id + 1 && world.calls[id] == Call(me, storageToFulfill, Popping)
        invariant storageToFulfill >= 1
        invariant table == old(table) + rows && attempts == old(attempts) + tried
        invariant served == Preceded(rows, tried, Serve(outcomes, |attempts|, queue, me, storageToFulfill))
        decreases |queue|
      {
        var destination := queue[0];
        ServeStep(outcomes, |attempts|, queue, me, storageToFulfill);
        PoppingEffect(world.calls[id], queue, table, true);
        ghost var n, later := |attempts|, queue[1..];
        queue := queue[1..];
        events := Advance(request, id, true, start, events);
        if destination.clientId == request.clientId {
          continue;
        }
        var storageMatch := Min(storageToFulfill, destination.storageRequired);
        var outcome;
        outcome, events := Negotiate(request, destination, storageMatch, id, start, events);
        ghost var rows', tried' := RowsOf(outcomes, n, me, destination.clientId, storageMatch),
                                   AttemptsOf(outcomes, n, me, destination.clientId, storageMatch);
        Assoc(old(table), rows, rows');
        Assoc(old(attempts), tried, tried');
        PrecededAll(rows, tried, rows', tried');
        rows, tried := rows + rows', tried + tried';
        if outcome == Unreachable {
          continue;
        }
        if outcome.Failed? {
          return Err(outcome.error), events;
        }
        storageToFulfill, events := Settle(request, destination, storageToFulfill, id, start, events);
        if storageToFulfill == 0 {
          return Ok(()), events;
        }
      }
      PoppingEffect(world.calls[id], queue, table, true);
      events := Advance(request, id, true, start, events);
      PushingEffect(world.calls[id], queue, table, true);
      queue := queue + [Request(storageToFulfill, request.clientId)];
      events := Advance(request, id, true, start, events);
      ServeEnds(outcomes, |attempts|, me, storageToFulfill, rows, tried);
      return Ok(()), events;
    }

    /** Matches a request with the queued ones. Without interleaving this is a run of the transition system
        made of this call's steps alone. What it comes to is determined by how its awaits end. */
    method Fulfill(request: Request) returns (r: Result<(), FulfillError>, ghost events: seq<Event>)
      requires Valid()
      modifies this
      ensures Valid()
      ensures Runs(old(world), events) && world == Run(old(world), events)
      ensures OfCall(events, request, |old(world.calls)|)
      ensures |world.calls| == |old(world.calls)| + 1 && world.calls[|old(world.calls)|].phase == Done(r.Ok?)
      ensures r == Err(BadRequest) <==> request.storageRequired > MAX_BACKUP_STORAGE_REQUEST_SIZE
      ensures request.storageRequired == 0 || r == Err(BadRequest) ==>
                (request.storageRequired == 0 ==> r == Ok(())) &&
                queue == old(queue) && table == old(table) && attempts == old(attempts)
      ensures 1 <= request.storageRequired <= MAX_BACKUP_STORAGE_REQUEST_SIZE ==>
                var served := Serve(outcomes, |old(attempts)|, old(queue), request.clientId, request.storageRequired);
                r == served.result && queue == served.queue && table == old(table) + served.rows &&
                attempts == old(attempts) + served.attempts
      ensures r.Ok? ==> exists rows :: table == old(table) + rows && Mutual(rows)
      ensures 1 <= request.storageRequired <= MAX_BACKUP_STORAGE_REQUEST_SIZE && AllSucceed(|old(attempts)|) ==>
                var (q, rows) := Greedy(old(queue), request.clientId, request.storageRequired);
                r.Ok? && queue == q && table == old(table) + rows
    {
      NoRowsAreMutual();
      hide Runs, Run, Serve, OfCall, Mutual, Greedy, Server.AllSucceed;
      assert table == table + [];
      ghost var start, id := world, |world.calls|;
      EmptyRun(start);
      RunSnoc(start, [], Start(request));
      events := [] + [Start(request)];
      CallStarts(request, id);
      world := Next(world, Start(request));
      if request.storageRequired == 0 {
        return Ok(()), events;
      }
      if request.storageRequired > MAX_BACKUP_STORAGE_REQUEST_SIZE {
        return Err(BadRequest), events;
      }
      ServeErrors(outcomes, |attempts|, queue, request.clientId, request.storageRequired);
      ServeIsMutual(outcomes, |attempts|, queue, request.clientId, request.storageRequired);
      if AllSucceed(|attempts|) {
        SucceedAll(|attempts|);
        ServeIsGreedy(outcomes, |attempts|, queue, request.clientId, request.storageRequired);
      }
      r, events := MatchQueued(request, id, start, events);
    }
  }

  /** What Serve does with the first entry. */
  lemma {:induction false} ServeStep(outcomes: nat -> bool, n: nat, queue: seq<Request>, me: ClientId, remaining: nat)
    requires queue != []
    ensures var entry, later, served := queue[0], queue[1..], Serve(outcomes, n, queue, me, remaining);
            if entry.clientId == me then served == Serve(outcomes, n, later, me, remaining)
            else
              var size := Min(remaining, entry.storageRequired);
              var rows, attempts := RowsOf(outcomes, n, me, entry.clientId, size),
                                    AttemptsOf(outcomes, n, me, entry.clientId, size);
              match NegotiationOf(outcomes, n)
              case Unreachable =>
                served == Preceded(rows, attempts, Serve(outcomes, n + |attempts|, later, me, remaining))
              case Failed(error) => served == Preceded(rows, attempts, Served(later, [], [], Err(error)))
              case Matched =>
                if remaining < entry.storageRequired then
                  var rest := Request(entry.storageRequired - remaining, entry.clientId);
                  served == Preceded(rows, attempts, Served(later + [rest], [], [], Ok(())))
                else if remaining > entry.storageRequired then
                  served == Preceded(rows, attempts, Serve(outcomes, n + |attempts|, later, me,
                                                           remaining - entry.storageRequired))
                else served == Preceded(rows, attempts, Served(later, [], [], Ok(())))
  {
    var entry := queue[0];
    var size := Min(remaining, entry.storageRequired);
    var rows, attempts := RowsOf(outcomes, n, me, entry.clientId, size),
                          AttemptsOf(outcomes, n, me, entry.clientId, size);
    assert rows + [] == rows && attempts + [] == attempts;
  }

  lemma {:induction false} PrecededAll(rows: seq<Row>, attempts: seq<Attempt>, rows': seq<Row>, attempts': seq<Attempt>)
    ensures forall rest :: Preceded(rows, attempts, Preceded(rows', attempts', rest)) ==
                           Preceded(rows + rows', attempts + attempts', rest)
    ensures forall queue, result ::
              Preceded(rows + rows', attempts + attempts', Served(queue, [], [], result)) ==
              Served(queue, rows + rows', attempts + attempts', result)
  {
    forall rest
      ensures Preceded(rows, attempts, Preceded(rows', attempts', rest)) ==
              Preceded(rows + rows', attempts + attempts', rest)
    {
      PrecededTwice(rows, attempts, rows', attempts', rest);
    }
    assert rows + rows' + [] == rows + rows' && attempts + attempts' + [] == attempts + attempts';
  }

  lemma {:induction false} ServeEnds(outcomes: nat -> bool, n: nat, me: ClientId, remaining: nat, rows: seq<Row>,
                                     attempts: seq<Attempt>)
    ensures Preceded(rows, attempts, Serve(outcomes, n, [], me, remaining)) ==
            Served([Request(remaining, me)], rows, attempts, Ok(()))
  {
    assert rows + [] == rows && attempts + [] == attempts;
  }

  lemma {:induction false} ServeErrors(outcomes: nat -> bool, n: nat, queue: seq<Request>, me: ClientId, remaining: nat)
    ensures Serve(outcomes, n, queue, me, remaining).result != Err(BadRequest)
    decreases |queue|
  {
    if queue != [] {
      var entry, later := queue[0], queue[1..];
      var first := AttemptsOf(outcomes, n, me, entry.clientId, Min(remaining, entry.storageRequired));
      ServeErrors(outcomes, n, later, me, remaining);
      ServeErrors(outcomes, n + |first|, later, me, remaining);
      if remaining > entry.storageRequired {
        ServeErrors(outcomes, n + |first|, later, me, remaining - entry.storageRequired);
      }
    }
  }

  // ----- What the greedy matching gives -----

  /** Bytes requested by anybody but this client. */
  function NotBy(me: ClientId): Request -> nat {
    (r: Request) => if r.clientId == me then 0 else r.storageRequired
  }

  /** What the j-th entry gets: its whole request, or as much as those before it leave. */
  function Share(queue: seq<Request>, me: ClientId, required: nat, j: nat): nat
    requires j < |queue|
  {
    var ahead := Sum(queue[..j], NotBy(me));
    if ahead >= required then 0 else Min(required - ahead, NotBy(me)(queue[j]))
  }

  /** The rows that record the shares from the j-th entry on. */
  function ShareRows(queue: seq<Request>, me: ClientId, required: nat, j: nat): seq<Row>
    requires j <= |queue|
    decreases |queue| - j
  {
    if j == |queue| then []
    else
      (if Share(queue, me, required, j) == 0 then []
       else BothWays(me, queue[j].clientId, Share(queue, me, required, j)))
      + ShareRows(queue, me, required, j + 1)
  }

  ghost predicate AllInRange(queue: seq<Request>) {
    forall r :: r in queue ==> InRange(r)
  }

  lemma {:induction false} NothingLeftToShare(queue: seq<Request>, me: ClientId, required: nat, j: nat)
    requires j <= |queue| && Sum(queue[..j], NotBy(me)) >= required
    ensures ShareRows(queue, me, required, j) == []
    decreases |queue| - j
  {
    if j < |queue| {
      assert queue[..j + 1] == queue[..j] + [queue[j]];
      SumSnoc(queue[..j], queue[j], NotBy(me));
      NothingLeftToShare(queue, me, required, j + 1);
    }
  }

  lemma {:induction false} GreedySharesFrom(queue: seq<Request>, me: ClientId, required: nat, j: nat)
    requires AllInRange(queue) && j <= |queue| && Sum(queue[..j], NotBy(me)) < required
    ensures Greedy(queue[j..], me, required - Sum(queue[..j], NotBy(me))).1 == ShareRows(queue, me, required, j)
    decreases |queue| - j
  {
    hide Sum;
    if j < |queue| {
      var ahead := Sum(queue[..j], NotBy(me));
      assert queue[..j + 1] == queue[..j] + [queue[j]];
      SumSnoc(queue[..j], queue[j], NotBy(me));
      assert queue[j..][1..] == queue[j + 1..];
      assert queue[j] in queue;
      if Sum(queue[..j + 1], NotBy(me)) < required {
        GreedySharesFrom(queue, me, required, j + 1);
      } else {
        NothingLeftToShare(queue, me, required, j + 1);
      }
    }
  }

  /** First come, first matched: the greedy matching records for each queued request, in queue order, what
      the earlier requests of other clients leave of it, the same in both directions. */
  lemma {:induction false} GreedyShares(queue: seq<Request>, me: ClientId, required: nat)
    requires AllInRange(queue) && required >= 1
    ensures Greedy(queue, me, required).1 == ShareRows(queue, me, required, 0)
  {
    assert queue[..0] == [] && queue[0..] == queue;
    GreedySharesFrom(queue, me, required, 0);
  }

  /** What is left of others' requests after the greedy matching. */
  ghost predicate TakesAll(queue: seq<Request>, me: ClientId, required: nat) {
    Sum(Greedy(queue, me, required).1, FromSource(me)) == Min(required, Sum(queue, NotBy(me))) &&
    (required > Sum(queue, NotBy(me)) ==>
       Greedy(queue, me, required).0 == [Request(required - Sum(queue, NotBy(me)), me)]) &&
    (required <= Sum(queue, NotBy(me)) ==>
       Sum(Greedy(queue, me, required).0, NotBy(me)) == Sum(queue, NotBy(me)) - required)
  }

  /** The first entry is used up and more is needed. */
  lemma {:induction false} TakesFirst(queue: seq<Request>, me: ClientId, required: nat)
    requires queue != [] && queue[0].clientId != me && required > queue[0].storageRequired
    requires TakesAll(queue[1..], me, required - queue[0].storageRequired)
    ensures TakesAll(queue, me, required)
  {
    hide Sum;
    var entry, later := queue[0], queue[1..];
    SumHead(queue, NotBy(me));
    BothWaysTo(me, entry.clientId, entry.storageRequired);
    SumAppend(BothWays(me, entry.clientId, entry.storageRequired),
              Greedy(later, me, required - entry.storageRequired).1, FromSource(me));
  }

  /** The first entry covers all that is needed. */
  lemma {:induction false} TakesFromFirst(queue: seq<Request>, me: ClientId, required: nat)
    requires queue != [] && queue[0].clientId != me && required <= queue[0].storageRequired
    ensures TakesAll(queue, me, required)
  {
    hide Sum;
    var entry, later := queue[0], queue[1..];
    SumHead(queue, NotBy(me));
    BothWaysTo(me, entry.clientId, required);
    SumSnoc(later, Request(entry.storageRequired - required, entry.clientId), NotBy(me));
  }

  lemma {:induction false} SkipsOwn(queue: seq<Request>, me: ClientId, required: nat)
    requires queue != [] && queue[0].clientId == me && TakesAll(queue[1..], me, required)
    ensures TakesAll(queue, me, required)
  {
    hide Sum;
    SumHead(queue, NotBy(me));
  }

  lemma {:induction false} AlwaysTakesAll(queue: seq<Request>, me: ClientId, required: nat)
    requires required >= 1
    ensures TakesAll(queue, me, required)
  {
    if queue != [] {
      hide TakesAll;
      if queue[0].clientId == me {
        AlwaysTakesAll(queue[1..], me, required);
        SkipsOwn(queue, me, required);
      } else if required > queue[0].storageRequired {
        AlwaysTakesAll(queue[1..], me, required - queue[0].storageRequired);
        TakesFirst(queue, me, required);
      } else {
        TakesFromFirst(queue, me, required);
      }
    }
  }

  /** The caller gets all it asked for, or all that others have queued if that is less; only then does
      the rest of its own request stay in the queue, and there nothing else. */
  lemma {:induction false} GreedyTakesAll(queue: seq<Request>, me: ClientId, required: nat)
    requires required >= 1
    ensures Sum(Greedy(queue, me, required).1, FromSource(me)) == Min(required, Sum(queue, NotBy(me)))
    ensures required > Sum(queue, NotBy(me)) ==>
              Greedy(queue, me, required).0 == [Request(required - Sum(queue, NotBy(me)), me)]
    ensures required <= Sum(queue, NotBy(me)) ==>
              Sum(Greedy(queue, me, required).0, NotBy(me)) == Sum(queue, NotBy(me)) - required
  {
    AlwaysTakesAll(queue, me, required);
    hide Sum, Greedy;
  }

  lemma {:induction false} BothWaysTo(me: ClientId, other: ClientId, size: nat)
    requires me != other
    ensures Sum(BothWays(me, other, size), FromSource(me)) == size
  {
    assert BothWays(me, other, size) == [] + [Row(me, other, size), Row(other, me, size)];
    SumTwo([], Row(me, other, size), Row(other, me, size), FromSource(me));
  }

  lemma {:induction false} BothWaysFrom(me: ClientId, other: ClientId, size: nat, c: ClientId)
    requires me != other && c != me
    ensures Sum(BothWays(me, other, size), FromSource(c)) == if c == other then size else 0
  {
    assert BothWays(me, other, size) == [] + [Row(me, other, size), Row(other, me, size)];
    SumTwo([], Row(me, other, size), Row(other, me, size), FromSource(c));
  }

  ghost predicate Conserves(queue: seq<Request>, me: ClientId, required: nat, c: ClientId) {
    Sum(queue, RequestedBy(c)) ==
    Sum(Greedy(queue, me, required).1, FromSource(c)) + Sum(Greedy(queue, me, required).0, RequestedBy(c))
  }

  lemma {:induction false} ConservesOwn(queue: seq<Request>, me: ClientId, required: nat, c: ClientId)
    requires c != me && queue != [] && queue[0].clientId == me && Conserves(queue[1..], me, required, c)
    ensures Conserves(queue, me, required, c)
  {
    hide Sum;
    SumHead(queue, RequestedBy(c));
  }

  lemma {:induction false} ConservesFirst(queue: seq<Request>, me: ClientId, required: nat, c: ClientId)
    requires c != me && queue != [] && queue[0].clientId != me && required > queue[0].storageRequired
    requires Conserves(queue[1..], me, required - queue[0].storageRequired, c)
    ensures Conserves(queue, me, required, c)
  {
    hide Sum;
    var entry, later := queue[0], queue[1..];
    SumHead(queue, RequestedBy(c));
    BothWaysFrom(me, entry.clientId, entry.storageRequired, c);
    SumAppend(BothWays(me, entry.clientId, entry.storageRequired),
              Greedy(later, me, required - entry.storageRequired).1, FromSource(c));
  }

  lemma {:induction false} ConservesInFirst(queue: seq<Request>, me: ClientId, required: nat, c: ClientId)
    requires c != me && queue != [] && queue[0].clientId != me && required <= queue[0].storageRequired
    ensures Conserves(queue, me, required, c)
  {
    var entry, later := queue[0], queue[1..];
    SumOne(Request(0, me), RequestedBy(c));
    hide Sum;
    SumHead(queue, RequestedBy(c));
    BothWaysFrom(me, entry.clientId, required, c);
    SumSnoc(later, Request(entry.storageRequired - required, entry.clientId), RequestedBy(c));
  }

  lemma {:induction false} AlwaysConserves(queue: seq<Request>, me: ClientId, required: nat, c: ClientId)
    requires c != me
    ensures Conserves(queue, me, required, c)
  {
    if queue == [] {
      SumOne(Request(required, me), RequestedBy(c));
    } else {
      hide Conserves;
      if queue[0].clientId == me {
        AlwaysConserves(queue[1..], me, required, c);
        ConservesOwn(queue, me, required, c);
      } else if required > queue[0].storageRequired {
        AlwaysConserves(queue[1..], me, required - queue[0].storageRequired, c);
        ConservesFirst(queue, me, required, c);
      } else {
        ConservesInFirst(queue, me, required, c);
      }
    }
  }

  /** No other client loses a byte: what it had queued it now has in the table or still in the queue. */
  lemma {:induction false} GreedyConserves(queue: seq<Request>, me: ClientId, required: nat, c: ClientId)
    requires c != me
    ensures Sum(queue, RequestedBy(c)) ==
            Sum(Greedy(queue, me, required).1, FromSource(c)) + Sum(Greedy(queue, me, required).0, RequestedBy(c))
  {
    AlwaysConserves(queue, me, required, c);
    hide Sum, Greedy;
  }
}
